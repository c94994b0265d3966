# Verified models of the Activity Room and the assistant runtime

This project models, in Dafny, the parts of the Vestara repository whose correctness rests on
state rather than on wiring, and proves what they are relied on for.

* **Activity Room projections.** `Attention`, `AttentionMeaning`, `EffectiveState`,
  `OpenAgreement`, `RepositoryVerification`: one-pass folds over the activity history, the meaning
  of each fold, and the agreement of the two independent definitions of "open". `AttentionShown` and
  `EffectiveShown` say what is shown in terms of the records alone. `Stream`, `ProjectionRuntime`,
  `ProjectionMeaning`, `RoomStories`: the live projection of the room and its muted stream.
* **The assistant turn and its durable mirror.** `OpenCodeTurn`, `OpenCodeTurnRuns`: the event loop
  of a turn; `OpenCodeTurnStory`: what it shows and mirrors, read off the events it took. `ToolLog`,
  `EventIdentities`: how facts reach the durable log, and under which identity. `CodexStream`: the
  producer/consumer stream.
* **Registries.** `ConversationSessions`, `InteractionBroker`, `TelegramBridge`, `TurnControls`:
  state machines shared by concurrent callers. `ConversationStories`, `InteractionStories`: what each
  caller and each promise gets in every interleaving.
* **Windows, caches and bounds.** `LoginThrottle`, `UiAssetCache`, `AssetCacheHistory`, `ReadPreview`.
* `OrderedMaps`, `Folds` and `JoinedTexts` hold what these share: an insertion-ordered map like the
  JavaScript `Map`, sorting, the theorem that a delete-then-write fold is a last-writer map, and when
  two pairs of texts joined by a separator read the same.

Code between two `await` or `yield` points is one atomic step, and a run is any sequence of such
steps; steps that are not enabled change nothing. Each class is proved against functions on its
abstract state, and the theorems about runs are about those functions. Timestamps that the code
compares as numbers are integers; ids and ISO timestamps are strings.

Where the code and its documentation differ, the model follows the code:

* Single flight of session acquisition is documented without conditions.
  A conversation gets a second `createSession` exactly when somebody reaches it although an acquisition
  of that conversation has already ended with a failed create (`SessionRuns.SecondCreateExactly`,
  `SessionRuns.FailedCreateLetsTwoCreate`). In every run a finished caller got the answer of the binding
  in the step it finished exactly when its own create did not fail
  (`SessionRuns.AnsweredFromTheBindingThen`). Without a failed create, every finished caller has the
  answer of the present binding throughout exactly when every `set` keeps those answers, as one does that
  gives no bound conversation another session (`SessionRuns.AnsweredThroughoutExactly`,
  `SessionRuns.SingleFlight`, `SessionRuns.LoneSetRebinds`). That the binding itself never changes rests
  besides on no `set` while somebody is acquiring (`SessionRuns.BindingNeverChanges`,
  `SessionRuns.BindingKeptExactly`, `SessionRuns.OverlappingSetIsOverwritten`).
* The termination in a turn's meta chunk is documented as authoritative. A Stop between the
  chunk and the decision on the abort still overrules it and aborts the session
  (`TurnRuns.MetaReportsTheEndExactly`, `TurnRuns.StopOverrulesTheReport`).
* A Stop is documented to cancel the turn. An idle event taken after it still completes the turn,
  and nothing is aborted (`TurnRuns.StopAbortsExactly`, `TurnRuns.IdleOverrulesTheStop`).
* The one-pass attention fold and the effective state can disagree about a record when sequence
  numbers are shared. With distinct ids they do so exactly when the record opens an item and no entry of
  its own kind, a record of the same sequence number and a greater id closes that item, and no record of
  a larger sequence number does (`OpenAgreement.ViewsAgreeExactly`).
* The broker's keys, `conversation:request`, are meant to identify a request. Two different
  conversations can share one exactly when one id is the other followed by a colon and more
  (`BrokerRuns.KeysCollideExactly`), and exactly then an entry about one can close a request of the other
  (`BrokerRuns.RequestsAreIsolatedExactly`).
* Test runs, approvals without a correlation id, repository checks, Telegram messages and lifecycle
  deliveries are also known by joined texts: different ones are taken for one exactly when they read
  alike (`AttentionShown.SubjectsAreSameExactly`, `RepositoryVerificationShown.KeysAgreeExactly`,
  `BridgeStories.TapFindsItsMessage`, `EventIdentities.SharedExactly`).
* Units are keyed by `workflow|session`, so different pairs of ids can fall into one unit
  (`OpenAgreement.UnitsSharedExactly`, `OpenAgreement.DifferentIdsShareAUnit`).
* The identity of a tool fact can be taken by an interaction that carries it as its own. The fact is in
  the log exactly when a tool update of its agent names the identity first
  (`ToolLogMeaning.ToolFactHeldExactly`, `ToolLogMeaning.InteractionStandsIn`).
* Interaction attention is deduplicated except under the empty id
  (`ProjectionMeaning.OpenTwiceExactlyWhenEmpty`).
* `task.completed` closes only the earliest open entry of its task
  (`ProjectionMeaning.TaskCompletedSettlesExactlyWhen`).
* A turn rejected with a falsy value completes the Codex stream
  (`CodexStreamRuns.FalsyFailureCompletes`).
* Cached assets are documented to invalidate themselves. A path can be served a stale one, by some order of
  requests and callbacks, exactly when it once had its present modification time and was another file
  then or since (`AssetCacheHistory.StaleHitPossibleExactly`).
* Responses and completed tasks under an empty id close nothing
  (`ProjectionMeaning.RespondedClosesTheInteraction`, `ProjectionMeaning.TaskCompletedSettlesExactlyWhen`).
* `canQueue` refuses the empty request id, which `enqueue` takes
  (`TurnControls.ActivityTurnControlRegistry.CanQueue`, `TurnControlRuns.EmptyRequestIdIsQueued`).

## Model

| member | source | states |
|---|---|---|
| LastWriter.FoldIsLastWriter | packages/activity-room/src/attention.ts:61-72 | deleting what a record resolves and then writing its entry, record by record, leaves exactly the writes that no later record deleted or overwrote |
| JoinedTexts.FirstTextsCollideExactly | apps/api/src/assistant-interaction-broker.ts:62-64 | two different first texts can be joined to the same key exactly when one begins with the other and the separator |
| JoinedTexts.SameKeyExactly | packages/activity-room/src/effective-state.ts:122-122 | two pairs join to the same text exactly when they are the same pair, or one first text begins with the other and the separator and the second text makes up for the rest |
| ActivityRecords.RecordOrderIsTotal | packages/activity-room/src/attention.ts:62-62 | the record order is a total preorder, and two records tie only when sequence and id agree |
| Attention.ResolveByRecord | packages/activity-room/src/attention.ts:299-339 | the in-place deletions of one record, loop included, are exactly those of the resolution function |
| Attention.ResolveDeletesExactlyKilled | packages/activity-room/src/attention.ts:299-339 | a record deletes an entry exactly when it answers that entry's key or resolves that entry's effect, and touches nothing else |
| Attention.ProjectAttentionEntries | packages/activity-room/src/attention.ts:61-72 | the loop over the sorted history yields the sorted active entries of the fold |
| Attention.ActiveIsLastWriter | packages/activity-room/src/attention.ts:61-72 | an entry is active exactly when some record wrote it and no later record resolved or overwrote it |
| Attention.AttentionOrderIsTotal | packages/activity-room/src/attention.ts:590-611 | the output comparison is a total order, and entries tie only when they have the same attention id |
| AttentionMeaning.OpenExactlyWhenLastVerdictRaises | packages/activity-room/src/attention.ts:299-332 | a task, workflow, verification, test or approval entry is open exactly when the last record that says anything about it raises it, and the open entry is that record's |
| AttentionMeaning.WritesSubjectKey | packages/activity-room/src/attention.ts:341-430 | a record files an entry under a subject's key exactly when its verdict about that subject is to raise it, and then its own kind-specific entry |
| AttentionMeaning.KillsSubjectKey | packages/activity-room/src/attention.ts:299-332 | an entry filed under a subject's key is deleted exactly by the records whose verdict settles that subject |
| AttentionMeaning.SubjectKeysDiffer | packages/activity-room/src/attention.ts:519-553 | two different subjects never share a key |
| AttentionMeaning.EffectEntryExactlyWhenUnresolved | packages/activity-room/src/attention.ts:335-338 | an effect entry is active exactly when its record has no kind-specific entry, opens an item and no later record resolves it |
| AttentionShown.ShownExactly | packages/activity-room/src/attention.ts:61-72 | when (sequence, id) identifies records, an entry is shown exactly when it is the own entry of a record than which no later one speaks about the same subject, or the item of a record that nothing later closes; told of the records alone, without keys, fold or order of arrival |
| AttentionShown.ShownByPosition | packages/activity-room/src/attention.ts:61-72 | in any history an entry is shown exactly when it is that of a record which, in sorted order, spoke last about its subject or left its item open |
| AttentionShown.SubjectsAreSameExactly | packages/activity-room/src/attention.ts:541-559 | two records have one subject exactly when they name the same task or workflow, the same verification by the first of run, task and record id that is present, a task and command that read alike once joined, or the same approval by correlation id or by thread, turn and tool that read alike |
| AttentionShown.VerdictIsWhatIsSaid | packages/activity-room/src/attention.ts:299-332 | a record raises or settles the subject of another exactly when it is about the same subject and its own status, state, outcome, counts or kind of message says so |
| AttentionShown.GreenRunOfAnotherCommandLeavesItOpen | packages/activity-room/src/attention.ts:545-547 | a failed test run stays open while every later run is of another command of the same task |
| AttentionShown.SevereFirstThenOldest | packages/activity-room/src/attention.ts:590-611 | the list goes from critical down to no severity, and among equals from older to newer |
| EffectiveState.ProjectEffectiveState | packages/activity-room/src/effective-state.ts:75-145 | the loops over the history yield the specified open items, units and corrections |
| EffectiveState.SomeResolves | packages/activity-room/src/effective-state.ts:102-116 | the inner search answers whether some record with a larger sequence number resolves the item |
| EffectiveState.CorrectionLoop | packages/activity-room/src/effective-state.ts:79-86 | the grouping loop lists, per corrected target, its corrections in order |
| EffectiveState.ListCorrections | packages/activity-room/src/effective-state.ts:87-100 | the loop over correction groups yields one summary per corrected target, in order of first correction |
| EffectiveShown.OpenExactly | packages/activity-room/src/effective-state.ts:102-116 | the open items are exactly those of the records that open one and that no record of a larger sequence number corrects, relates to, or disposes of in the same workflow or session; as many need attention |
| EffectiveShown.OpenInRecordOrder | packages/activity-room/src/effective-state.ts:102-116 | the open items come in the order of their records |
| EffectiveShown.CorrectionsExactly | packages/activity-room/src/effective-state.ts:78-100 | when (sequence, id) identifies records, a correction is reported exactly when a record makes it and no later record corrects the same target |
| EffectiveShown.ListsAreInOrder | packages/activity-room/src/effective-state.ts:100-142 | corrections are listed by the id they correct, units from the most to the least recently active |
| OpenAgreement.EffectEntriesAreOpenItems | packages/activity-room/src/effective-state.ts:63-116 | for a history with distinct ids and sequence numbers, the effect entries of the one-pass fold are exactly the open items of the quadratic definition whose record has no kind-specific entry, and each is its record's entry |
| OpenAgreement.ViewsAgreeExactly | packages/activity-room/src/effective-state.ts:63-116 | with distinct ids alone, the two views agree about a record exactly unless it opens an item and no entry of its own kind, a record of its sequence number and a greater id closes the item, and none of a larger sequence number does |
| OpenAgreement.WhatEachViewShows | packages/activity-room/src/attention.ts:335-338 | with distinct ids, the fold shows an effect entry exactly when its record opens an item and no entry of its own kind and neither kind of record closes it; the effective state keeps it open exactly when none of a larger sequence number does |
| OpenAgreement.UnresolvedIsOpen | packages/activity-room/src/effective-state.ts:102-116 | with strictly increasing sequence numbers, having no later resolver in sorted order and having no resolver with a larger sequence number are the same |
| OpenAgreement.SharedSequenceNumberSplitsTheViews | packages/activity-room/src/effective-state.ts:102-116 | such a disagreement exists: two records that share a sequence number, of which one closes the other |
| OpenAgreement.ProjectionsIgnoreArrivalOrder | packages/activity-room/src/attention.ts:62-71 | when (sequence, id) identifies records, both projections are the same for every permutation of the input |
| OpenAgreement.AttentionOutputIsStrict | packages/activity-room/src/attention.ts:71-71 | the attention list is strictly increasing in its order: no two entries tie |
| OpenAgreement.UnitCountsAddUp | packages/activity-room/src/effective-state.ts:118-142 | the units' record counts add up to the number of records that carry a workflow or session id |
| OpenAgreement.UnitMeaning | packages/activity-room/src/effective-state.ts:118-142 | the unit under a joined key exists exactly when a record has that key, and its last activity is the greatest timestamp among them |
| OpenAgreement.UnitsShownAreTheUnitsDescribed | packages/activity-room/src/effective-state.ts:118-142 | the units shown are exactly those the records describe: for each joined key, the number of its records, the ids of the last one, the effect of the last one that has one, and the greatest timestamp |
| OpenAgreement.UnitsSharedExactly | packages/activity-room/src/effective-state.ts:122-122 | two records fall into one unit exactly when their ids read the same, a missing one as empty, or the workflow id of one goes on after a bar where the session id of the other takes up |
| OpenAgreement.DifferentIdsShareAUnit | packages/activity-room/src/effective-state.ts:122-122 | two records of different workflows and sessions that are counted in one unit |
| OpenAgreement.UnitDisposition | packages/activity-room/src/effective-state.ts:118-142 | a unit's disposition is the effect of its last record that has one |
| OpenAgreement.UnitOrderIsTotal | packages/activity-room/src/effective-state.ts:142-142 | the unit order is a total preorder |
| OpenAgreement.CorrectionIsTheLast | packages/activity-room/src/effective-state.ts:78-100 | a target has a correction exactly when some record corrects it, and the reported one is the last |
| RepositoryVerification.ProjectRepositoryVerificationAttentionEntries | packages/activity-room/src/attention.ts:166-223 | the nested loops over reports and checks yield the specified fold over all checks in creation order |
| RepositoryVerification.ApplyChecks | packages/activity-room/src/attention.ts:175-219 | the inner loop deletes the keys of passed checks and sets those of failed ones, in order |
| RepositoryVerification.ReportOrderIsTotal | packages/activity-room/src/attention.ts:169-171 | the report order is a total preorder, and reports tie only when createdAt and id agree |
| RepositoryVerification.OpenExactlyWhenLastCheckFailed | packages/activity-room/src/attention.ts:166-223 | a check key is open exactly when the last passed-or-failed check under it failed, and the entry reports that check |
| RepositoryVerification.ReportsIgnoreArrivalOrder | packages/activity-room/src/attention.ts:166-223 | when (createdAt, id) identifies reports, the entries do not depend on the order reports arrive in |
| RepositoryVerificationShown.ReportsShownExactly | packages/activity-room/src/attention.ts:166-223 | when (createdAt, id) identifies reports, an entry is shown exactly when some check failed, and no later check of its report or of a report created later passes or fails under a change set and id that read alike; the entry is that check's |
| RepositoryVerificationShown.KeysAgreeExactly | packages/activity-room/src/attention.ts:507-512 | two checks are one exactly when their change sets and ids read alike once joined |
| MutedAggregation.AggregateMutedItems | packages/activity-room/src/m10-projection-runtime.ts:463-489 | the buffering loop yields the greedy grouping |
| MutedAggregation.AggregationLosesNothing | packages/activity-room/src/m10-projection-runtime.ts:463-529 | the rows are unchanged items and aggregates of 2 to 5 consecutive muted items, and expanding the aggregates gives back the input ids in order |
| MutedAggregation.AggregationRowCount | packages/activity-room/src/m10-projection-runtime.ts:463-489 | the number of rows is the number of non-muted items plus, for each maximal muted run, its length divided by five rounded up |
| Projection.ProjectionRuntime.Rebuild | packages/activity-room/src/m10-projection-runtime.ts:52-66 | whatever the runtime held, it then holds the projection of exactly the given records, so rebuilding from A and B is rebuilding from A and processing B live |
| Projection.ProjectionRuntime.ProcessRecord | packages/activity-room/src/m10-projection-runtime.ts:71-96 | one live record takes every component of the state to its specified successor |
| Projection.ProjectionRuntime.UpdateParticipantFromRecord | packages/activity-room/src/m10-projection-runtime.ts:138-204 | a record updates the participant of its actor, and no other |
| Projection.ProjectionRuntime.UpdateWorkflowSummary | packages/activity-room/src/m10-projection-runtime.ts:533-564 | a record updates the summary of its workflow run, and no other |
| Projection.ProjectionRuntime.UpdateInteractionWaitParticipant | packages/activity-room/src/m10-projection-runtime.ts:206-251 | a presented interaction makes its presenter wait on it; a response releases, in the loop over participants, exactly those waiting on that interaction |
| Projection.ProjectionRuntime.GenerateAttentionFor | packages/activity-room/src/m10-projection-runtime.ts:604-661 | resolving, deduplicating and raising attention in place is the specified step |
| Projection.ProjectionRuntime.RaiseAttention | packages/activity-room/src/m10-projection-runtime.ts:604-661 | an entry replaces the open one of the same task and reason or is appended, and an older open entry of the same interaction is dropped |
| Projection.ProjectionRuntime.ResolveFirstOpen | packages/activity-room/src/m10-projection-runtime.ts:604-661 | the first open entry that matches is resolved, and nothing else changes |
| ProjectionMeaning.StreamIsTheLastWindow | packages/activity-room/src/m10-projection-runtime.ts:82-89 | the raw stream is exactly the last 500 projected records, or all when there are fewer |
| ProjectionMeaning.PendingIsTheLastUnanswered | packages/activity-room/src/m10-projection-runtime.ts:206-251 | a participant waits on interaction i exactly when i was the last one presented to it and no admitted response to it came later |
| ProjectionMeaning.ReachableAttentionHasNoTwins | packages/activity-room/src/m10-projection-runtime.ts:604-661 | in every reachable state at most one entry is open per (task, reason) and per non-empty interaction id |
| ProjectionMeaning.RespondedClosesTheInteraction | packages/activity-room/src/m10-projection-runtime.ts:604-661 | after a response to an interaction nothing is open for it, exactly unless its id is empty and something was open for it before; under the empty id nothing changes |
| ProjectionMeaning.TaskCompletedClosesTheEarliest | packages/activity-room/src/m10-projection-runtime.ts:604-661 | a completed task resolves the earliest open entry of its task id and changes nothing else; under the empty id it changes nothing |
| ProjectionMeaning.TaskCompletedSettlesExactlyWhen | packages/activity-room/src/m10-projection-runtime.ts:604-661 | a completed task leaves nothing open exactly when at most one entry was open before, and under the empty id when none was |
| ProjectionMeaning.CompletedTaskCanStayOpen | packages/activity-room/src/m10-projection-runtime.ts:604-661 | a reachable history in which a completed task keeps an open entry |
| ProjectionMeaning.EmptyInteractionIdIsNotDeduplicated | packages/activity-room/src/m10-projection-runtime.ts:756-781 | the empty interaction id escapes deduplication: presented twice it is open twice |
| ProjectionMeaning.OpenTwiceExactlyWhenEmpty | packages/activity-room/src/m10-projection-runtime.ts:620-631 | some history leaves an interaction id open twice exactly when that id is empty |
| ProjectionMeaning.FiguresAreIndicators | packages/activity-room/src/m10-projection-runtime.ts:581-594 | a workflow's task figures are 1 when such a record was ever seen and 0 otherwise, never a count; the empty run id has none |
| ProjectionMeaning.CurrentTaskIsTheLastStarted | packages/activity-room/src/m10-projection-runtime.ts:533-564 | the current task is the last one started; nothing ever clears it; the empty run id has none |
| RoomStories.ParticipantIsItsStory | packages/activity-room/src/m10-projection-runtime.ts:138-293 | a participant is what the admitted records about it, in order, make of it: the state and task the last ones gave it, waiting when an interaction is presented for it, available once it is answered, joined since the first and last active with the last of them |
| RoomStories.RunIsItsRecords | packages/activity-room/src/m10-projection-runtime.ts:533-579 | a run has a summary exactly when a record names it, stands as the last record that says how and as running while none has, and dates from its first record to its last |
| RoomStories.RaisingLeavesExactly | packages/activity-room/src/m10-projection-runtime.ts:604-661 | in every reachable state a record that raises an entry leaves exactly that entry and those it does not take the place of: the open one of the same task and reason, or of the same interaction |
| RoomStories.OthersLeaveAttention | packages/activity-room/src/m10-projection-runtime.ts:604-661 | in every reachable state a record that neither raises an entry nor completes a task changes no entry, except that an answer resolves the open one of its interaction |
| RoomStories.ItemsWeighAsTheirRecords | packages/activity-room/src/m10-projection-runtime.ts:309-461 | an item carries its record's id, number and time; it is primary exactly for human messages, presented interactions and workflows that start, complete or fail, and muted exactly for progress, the unlisted lifecycle types and system events without data |
| OpenCodeTurn.React | apps/api/src/assistant-opencode-adapter.ts:443-468 | an event completes the turn exactly when it is idle, fails it exactly when it is a session error or, in a suggestion-only turn, a tool at work, a question or a note, and asks exactly when it is a permission or question that is shown |
| OpenCodeTurn.AssistantOpenCodeTurn.TakeEvent | apps/api/src/assistant-opencode-adapter.ts:802-1367 | dequeuing one event and acting on it is the specified stretch |
| OpenCodeTurn.AssistantOpenCodeTurn.CheckDeadline | apps/api/src/assistant-opencode-adapter.ts:771-803 | the head of the loop: deadline check, wait, re-check, and leaving on an exhausted stream |
| OpenCodeTurn.AssistantOpenCodeTurn.AwaitEvent | apps/api/src/assistant-opencode-adapter.ts:781-803 | the inner wait and its re-check of the deadline |
| OpenCodeTurn.AssistantOpenCodeTurn.OnStop | apps/api/src/assistant-opencode-adapter.ts:731-737 | a Stop signal sets the termination to cancelled, whatever it was |
| OpenCodeTurn.AssistantOpenCodeTurn.LeaveLoopNow | apps/api/src/assistant-opencode-adapter.ts:1368-1379 | leaving the loop unsettled is a failure |
| OpenCodeTurn.AssistantOpenCodeTurn.CatchError | apps/api/src/assistant-opencode-adapter.ts:1457-1463 | an exception fails a turn that has not settled otherwise |
| OpenCodeTurn.AssistantOpenCodeTurn.ReturnEarly | apps/api/src/assistant-opencode-adapter.ts:1464-1467 | an early return goes to the closing block and leaves the termination as it is |
| OpenCodeTurn.AssistantOpenCodeTurn.YieldMeta | apps/api/src/assistant-opencode-adapter.ts:1431-1456 | the final chunk reports the termination and tool-call count of that moment |
| OpenCodeTurn.AssistantOpenCodeTurn.DecideAbort | apps/api/src/assistant-opencode-adapter.ts:1464-1483 | once the reader is closed, the termination of that moment decides |
| OpenCodeTurn.AssistantOpenCodeTurn.CountToolCall | apps/api/src/assistant-opencode-adapter.ts:866-882 | a counted call either reaches the budget and yields the error, or is yielded to be mirrored next |
| OpenCodeTurn.AssistantOpenCodeTurn.MirrorToolEvent | apps/api/src/assistant-opencode-adapter.ts:697-719 | a running mirror opens the call and a terminal one closes it; suggestion-only turns emit nothing |
| OpenCodeTurn.AssistantOpenCodeTurn.ResumeAfterYield | apps/api/src/assistant-opencode-adapter.ts:866-982 | what follows each yield: the mirror, the failure of a breached budget, or the end of the loop |
| OpenCodeTurn.AssistantOpenCodeTurn.SettleOpenTools | apps/api/src/assistant-opencode-adapter.ts:1500-1525 | the closing loop over open calls, then the abort |
| TurnRuns.EventsAreTakenBeforeTheDeadline | apps/api/src/assistant-opencode-adapter.ts:771-803 | in every run an event is dequeued only with a clock reading before the deadline |
| TurnRuns.ReplyIsTheTextTaken | apps/api/src/assistant-opencode-adapter.ts:826-852 | in every run the text chunks, joined, are the text deltas of the events taken, joined: none lost, doubled or reordered |
| TurnRuns.CompletedExactly | apps/api/src/assistant-opencode-adapter.ts:1346-1358 | the turn is completed exactly when the last event taken was idle and no Stop came after it |
| TurnRuns.MetaReportsTheEndExactly | apps/api/src/assistant-opencode-adapter.ts:1379-1483 | the meta chunk is last and never reports detached, and what it reports decides the abort exactly unless Stop fired between it and the decision |
| TurnRuns.StopOverrulesTheReport | apps/api/src/assistant-opencode-adapter.ts:1431-1483 | a run that reports completed and then aborts as cancelled |
| TurnRuns.BudgetBoundsToolCalls | apps/api/src/assistant-opencode-adapter.ts:819-882 | with a budget M above 0 at most M - 1 counted tool calls are shown and at most M counted; with none, every counted call is shown |
| TurnRuns.AbortedExactly | apps/api/src/assistant-opencode-adapter.ts:1464-1526 | the session is aborted at most once, and by the end exactly when the deciding termination is failed, timed out or cancelled, or the turn is suggestion-only |
| TurnRuns.LeftAloneMeansIdleOrDetached | apps/api/src/assistant-opencode-adapter.ts:1368-1379 | a turn that ends without an abort took idle last, or its consumer returned early and no Stop fired before the decision |
| TurnRuns.StopAbortsExactly | apps/api/src/assistant-opencode-adapter.ts:726-737 | a Stop before the decision leads to an abort exactly unless idle is taken after it |
| TurnRuns.IdleOverrulesTheStop | apps/api/src/assistant-opencode-adapter.ts:1346-1358 | a run that is stopped in time, takes idle after it, completes and aborts nothing |
| TurnRuns.AbortClosesEveryCall | apps/api/src/assistant-opencode-adapter.ts:1500-1509 | once the session is aborted, every call mirrored as running has a later terminal mirror |
| TurnRuns.SettlingMirrorsInOrder | apps/api/src/assistant-opencode-adapter.ts:1500-1525 | closing mirrors each open call once as failed, in the order the calls were opened, and aborts once |
| TurnRuns.SettlingIsUndisturbed | apps/api/src/assistant-opencode-adapter.ts:1464-1526 | while open calls are being closed the turn takes no other step, except that Stop may still fire |
| TurnRuns.LateStopChangesNothing | apps/api/src/assistant-opencode-adapter.ts:1464-1526 | a Stop after the decision, put into any run, changes nothing but the recorded termination: not the decision, the mirrors, the chunks or the abort |
| TurnStory.MirrorsAreTheTransitionsTaken | apps/api/src/assistant-opencode-adapter.ts:866-1030 | in every run the mirrors are, in order, the tool transitions of the events taken, with their call ids, tools and outcomes, without a last one that breached the budget or whose chunk the consumer has not gone past; once the turn was aborted, one failure follows for each call these leave open |
| TurnStory.OpenExactlyWhenRunning | apps/api/src/assistant-opencode-adapter.ts:697-700 | a call is left open exactly when its last transition says that it is running |
| TurnStory.SuggestionsAreNotMirrored | apps/api/src/assistant-opencode-adapter.ts:700-702 | a suggestion-only turn mirrors nothing |
| TurnStory.ContentIsWhatEventsBring | apps/api/src/assistant-opencode-adapter.ts:826-1030 | in every run the text, reasoning, call and result chunks are, in order, what the events taken bring, except a last call that breached the budget |
| TurnStory.CountIsTheCallsBrought | apps/api/src/assistant-opencode-adapter.ts:866-1456 | the calls counted are those the events taken bring, a breaching one included, and the meta chunk reports their number |
| TurnStory.TerminationExactly | apps/api/src/assistant-opencode-adapter.ts:726-1379 | in every run a turn is what the last step that settled it made it, and detached while none has: timed out past the deadline, cancelled by a Stop, completed by an idle event, failed by an error, a forbidden event, a breached budget or the end of the events |
| ActivityIngestion.IdempotentActivityStore.AppendEvent | packages/activity-room/src/m9-store.ts:36-71 | an event with a new identity is appended with the next number; one with a known identity returns the existing record and changes nothing |
| ActivityIngestion.M9IngestionBridge.IngestEvent | packages/activity-room/src/m9-ingestion-bridge.ts:351-427 | one bus event is skipped, or appended under its semantic identity |
| ToolLogMeaning.LogIsTheFirstOfEachIdentity | packages/activity-room/src/m9-store.ts:36-71 | the log is the first fact of each identity in arrival order, numbered from one, no identity twice |
| ToolLogMeaning.LoggedExactlyWhenNamed | packages/activity-room/src/m9-ingestion-bridge.ts:351-427 | an identity is in the log exactly when some delivered event names it |
| ToolLogMeaning.PaddingLeavesTheLog | packages/activity-room/src/m9-ingestion-bridge.ts:586-596 | replays and raw-bridge copies put in anywhere leave identities, actors and numbers as they are |
| ToolLogMeaning.AddsNothingExactly | packages/activity-room/src/m9-ingestion-bridge.ts:403-427 | an event leaves the log unchanged exactly when it is not ingested or its identity was named before |
| EventIdentities.KeptUnderItsIdentity | packages/activity-room/src/m9-ingestion-bridge.ts:403-427 | an event is kept under the identity of its kind (the call and transition of a tool, the message of a message or response, the id an interaction brings, or else its delivery), with its own type and actor; one without an identity is not kept |
| EventIdentities.SharedExactly | packages/activity-room/src/m9-ingestion-bridge.ts:403-427 | two ingested events share an identity exactly when theirs are the same, are deliveries whose types and ids read alike once joined, or one is an interaction that brings the text of the other |
| EventIdentities.ReplayAddsNothingExactly | packages/activity-room/src/m9-ingestion-bridge.ts:351-427 | an event adds its own fact to the log, numbered next, exactly unless it has no identity or some event before shares it |
| EventIdentities.MessagesSharedExactly | packages/activity-room/src/m9-ingestion-bridge.ts:409-414 | two human messages are kept as one exactly when they carry the same message id, or both carry none and are one delivery |
| EventIdentities.ResponsesSharedExactly | packages/activity-room/src/m9-ingestion-bridge.ts:420-425 | two responses are kept as one exactly when they carry the same message id, or both carry none and are one delivery |
| EventIdentities.InteractionsSharedExactly | packages/activity-room/src/m9-ingestion-bridge.ts:404-408 | two interactions are kept as one exactly when they bring the same id, or one brings the id the other is known by, or both bring none and are one delivery of one kind |
| ToolLogMeaning.CopiesAreRedundant | packages/activity-room/src/m9-ingestion-bridge.ts:586-629 | raw-bridge copies are such events; and of two ingested tool updates the later is, on account of the earlier, exactly when both are about the same transition of the same call, however they spell it |
| ToolLogMeaning.ActorIsTheNamers | packages/activity-room/src/m9-adapter.ts:436-474 | a record carries the actor that its ingested namers agree on |
| ToolLogMeaning.ToolIdsDiffer | packages/activity-room/src/m9-adapter.ts:448-455 | two tool facts have the same identity exactly when they are the same transition of the same call |
| ToolLogMeaning.ToolFactHeldExactly | packages/activity-room/src/m9-ingestion-bridge.ts:351-427 | the log holds the fact of a transition, by type and actor and not just identity, once exactly when the first event naming its identity is a tool update of that agent, and otherwise not at all |
| ToolLogMeaning.OnlyUpdatesBecomeToolFacts | packages/activity-room/src/m9-ingestion-bridge.ts:433-629 | an event is ingested as an agent's fact of a transition exactly when it names that identity and is a tool update of that agent |
| ToolLogMeaning.InteractionStandsIn | packages/activity-room/src/m9-ingestion-bridge.ts:404-408 | an interaction that carries a tool fact's identity and comes first keeps the fact out of the log |
| ToolLogMeaning.MirrorNamesItsFact | packages/activity-room/src/m9-ingestion-bridge.ts:586-629 | a mirror of a turn becomes the tool fact of its transition and call, under the turn's agent or, without a name, the default one |
| ToolLogMeaning.AbortedTurnLeavesSettledToolFacts | packages/activity-room/src/m9-ingestion-bridge.ts:586-629 | after an aborted turn whose mirrors were delivered among anything else, the log holds, for every call mirrored as running, one record under the called identity and at least one under a terminal one; they are the turn's own facts exactly when its updates name them first, which holds when only the agent's updates name the call |
| CodexStream.ChunkStream.PushChunk | apps/api/src/assistant-codex-adapter.ts:379-382 | a pushed chunk joins the queue and wakes a sleeping consumer |
| CodexStream.ChunkStream.FinishTurn | apps/api/src/assistant-codex-adapter.ts:391-394 | the end of the turn wakes a sleeping consumer |
| CodexStream.ChunkStream.DrainQueue | apps/api/src/assistant-codex-adapter.ts:396-407 | the consumer yields the oldest chunk, sleeps, or ends |
| CodexStreamRuns.EveryChunkOnceInOrder | apps/api/src/assistant-codex-adapter.ts:372-420 | what is yielded is a prefix of what the turn produced, and all of it before the stream completes or throws; it throws exactly when the turn was rejected with a truthy value |
| CodexStreamRuns.NoLostWakeUp | apps/api/src/assistant-codex-adapter.ts:379-404 | no reachable state leaves the consumer asleep, with no wake-up under way, while chunks wait or the producer has finished |
| CodexStreamRuns.FinishedStreamsEnd | apps/api/src/assistant-codex-adapter.ts:396-420 | once the producer has finished, a consumer that keeps asking gets every chunk and reaches the end in a bounded number of steps, an error exactly when the turn was rejected with a truthy value |
| CodexStreamRuns.FalsyFailureCompletes | apps/api/src/assistant-codex-adapter.ts:385-407 | a rejection with a falsy value is not noticed |
| CodexStreamRuns.ProducerIsTheTurn | apps/api/src/assistant-codex-adapter.ts:379-394 | the producer holds exactly what the turn settled with, and has pushed exactly the chunks produced before that |
| ConversationSessions.AssistantConversationSessionRegistry.Acquire | apps/api/src/assistant-conversation-sessions.ts:87-111 | a caller queues behind the lock holder, or takes the lock and runs to the first await |
| ConversationSessions.AssistantConversationSessionRegistry.DoAcquire | apps/api/src/assistant-conversation-sessions.ts:113-143 | an existing binding is reused, or refused for another repository; else the preferred session is probed, else one is created |
| ConversationSessions.AssistantConversationSessionRegistry.AfterVerification | apps/api/src/assistant-conversation-sessions.ts:132-146 | a live preferred session is bound and returned as not created; otherwise creation starts |
| ConversationSessions.AssistantConversationSessionRegistry.AfterCreation | apps/api/src/assistant-conversation-sessions.ts:147-155 | a created session is bound, whatever is bound by then, and returned as created |
| SessionRuns.EveryRunKeepsLocks | apps/api/src/assistant-conversation-sessions.ts:87-111 | in every run the lock table names exactly the holders that have not released, waiters wait for an earlier holder of their conversation, and an acquisition that ended without a failed create left its conversation bound |
| SessionRuns.NoWaiterIsStranded | apps/api/src/assistant-conversation-sessions.ts:87-111 | in every run each waiter can go on, or its holder is at a step that a reply or the lock release completes |
| SessionRuns.WaiterRunsAloneExactly | apps/api/src/assistant-conversation-sessions.ts:90-92 | a woken waiter works outside the lock exactly when the conversation is still unbound, and then its holder's create had failed |
| SessionRuns.SecondCreateExactly | apps/api/src/assistant-conversation-sessions.ts:87-156 | in every run, a conversation gets at most one createSession exactly when nobody reaches it after an acquisition of that conversation has ended with a failed create |
| SessionRuns.SingleCreate | apps/api/src/assistant-conversation-sessions.ts:87-156 | in particular with no failed create, whatever set does, there is at most one; besides, only one caller is ever at it, and nobody finishes before the conversation is bound |
| SessionRuns.SingleFlight | apps/api/src/assistant-conversation-sessions.ts:87-156 | with no failed create and no set that gives a bound conversation another session, every finished caller for the bound repository got the bound session while every other was refused, and there is at most one createSession |
| SessionRuns.BindingNeverChanges | apps/api/src/assistant-conversation-sessions.ts:113-156 | if besides nobody calls set while somebody is acquiring, a binding, repository included, never changes |
| SessionRuns.BindingKeptExactly | apps/api/src/assistant-conversation-sessions.ts:74-76 | with no failed create and no set while somebody is acquiring, a binding stays what it was from any point on exactly when no set names another session from there on |
| SessionRuns.BindingChangesExactly | apps/api/src/assistant-conversation-sessions.ts:74-156 | in any state a step gives a bound conversation another session exactly when it sets another, or binds another that a probe or a create came back with |
| SessionRuns.AnsweredFromTheBindingThen | apps/api/src/assistant-conversation-sessions.ts:113-156 | in every run, a finished caller got the answer of the binding in the step it finished, and at any point at all, exactly when its own create did not fail |
| SessionRuns.AnsweredThroughoutExactly | apps/api/src/assistant-conversation-sessions.ts:87-156 | over a run without a failed create, everyone who has finished has the present binding's answer at every point exactly when every set names a session from which they would have got it |
| SessionRuns.AnswersSurviveExactly | apps/api/src/assistant-conversation-sessions.ts:74-156 | a step leaves everyone with the present binding's answer exactly unless it sets a session from which some finished caller would have got another |
| SessionRuns.LoneSetRebinds | apps/api/src/assistant-conversation-sessions.ts:74-76 | a run without failures or overlaps in which a set with nobody in flight changes the binding |
| SessionRuns.FailedCreateLetsTwoCreate | apps/api/src/assistant-conversation-sessions.ts:87-111 | a run with one failed create reaches two concurrent creators |
| SessionRuns.OverlappingSetIsOverwritten | apps/api/src/assistant-conversation-sessions.ts:74-76 | a set during an acquisition is overwritten by it |
| SessionStories.CallersGetWhatTheyHear | apps/api/src/assistant-conversation-sessions.ts:113-156 | in every run each caller is where the binding it found, the answer of its probe and the result of its own create put it: a bound conversation answers, an unbound one adopts a live preferred session and otherwise creates |
| SessionStories.HeardExactly | apps/api/src/assistant-conversation-sessions.ts:130-148 | a caller has heard an answer exactly when the step that brings it happened |
| SessionStories.AliveIsAdoptedDeadIsReplaced | apps/api/src/assistant-conversation-sessions.ts:130-155 | nobody with a preferred session reaches createSession unless its own probe found it dead; whoever's probe found it alive ends with it, not created; a session counts as created exactly for the caller whose own createSession returned it |
| SessionStories.BoundToTheLast | apps/api/src/assistant-conversation-sessions.ts:74-156 | in every run a conversation is bound to what was set, adopted or created for it last |
| SessionStories.CreatesAreTheMakers | apps/api/src/assistant-conversation-sessions.ts:147-148 | there are as many createSession calls for a conversation as callers that reached one |
| SessionStories.PreferredSessionIsAdopted | apps/api/src/assistant-conversation-sessions.ts:130-144 | a run in which a live preferred session is adopted and none is created |
| InteractionBroker.AssistantInteractionBroker.AwaitDecision | apps/api/src/assistant-interaction-broker.ts:174-215 | registering a wait arms one timer and logs the request; a second wait on the key is refused |
| InteractionBroker.AssistantInteractionBroker.DecideWait | apps/api/src/assistant-interaction-broker.ts:217-243 | a decision is accepted exactly when a wait of its kind is pending, and then settles it |
| InteractionBroker.AssistantInteractionBroker.Cancel | apps/api/src/assistant-interaction-broker.ts:113-129 | a cancellation is accepted exactly when a question is pending, and then settles it with nothing |
| InteractionBroker.AssistantInteractionBroker.OnTimeout | apps/api/src/assistant-interaction-broker.ts:174-215 | a timer settles its pending entry with nothing and logs the expiry |
| InteractionBroker.AssistantInteractionBroker.RecordPolicyDecision | apps/api/src/assistant-interaction-broker.ts:151-167 | a policy decision is only logged |
| InteractionBroker.AssistantInteractionBroker.PushAudit | apps/api/src/assistant-interaction-broker.ts:169-172 | the trimming loop leaves the last 200 entries |
| BrokerRuns.EveryRunKeepsInv | apps/api/src/assistant-interaction-broker.ts:174-215 | in every run live timers and pending entries correspond one to one |
| BrokerRuns.EveryWaitResolvedExactlyOnce | apps/api/src/assistant-interaction-broker.ts:169-243 | every registered wait is resolved exactly once unless it is still pending, and never otherwise |
| BrokerRuns.EveryRequestClosedOnce | apps/api/src/assistant-interaction-broker.ts:174-243 | the next entry about a request's key closes it, exactly once, exactly unless it is still pending |
| BrokerRuns.ClosedByItsOwn | apps/api/src/assistant-interaction-broker.ts:174-243 | in every run a request is closed by an entry about that very request, unless the two conversations collide |
| BrokerRuns.RequestsAreIsolatedExactly | apps/api/src/assistant-interaction-broker.ts:174-243 | some run closes a request of one conversation by an entry about another exactly when the two collide |
| BrokerRuns.AuditIsTheEndOfTheLog | apps/api/src/assistant-interaction-broker.ts:169-172 | the stored audit is the last 200 entries of the full log |
| BrokerRuns.KeysCollideExactly | apps/api/src/assistant-interaction-broker.ts:62-64 | two different conversations can share a key exactly when one id is the other followed by a colon and more; within a conversation different requests never do |
| BrokerRuns.KeysDifferWithoutColon | apps/api/src/assistant-interaction-broker.ts:62-64 | in particular, requests of conversations without a colon never share a key |
| BrokerRuns.KeysCollide | apps/api/src/assistant-interaction-broker.ts:62-64 | such a collision exists |
| BrokerStories.ResolvedWithExactly | apps/api/src/assistant-interaction-broker.ts:113-243 | in every run a promise is resolved with words exactly when a step accepted that very decision on its request, and with nothing exactly when a cancellation or its own timer came while it was open |
| BrokerStories.AcceptedExactly | apps/api/src/assistant-interaction-broker.ts:217-224 | a decision or cancellation is accepted exactly when an open promise of its kind is of a request that reads like the one it names |
| BrokerStories.PromisedExactly | apps/api/src/assistant-interaction-broker.ts:174-185 | a request is handed a promise exactly when no open one is of a request that reads alike |
| BrokerStories.EveryStepIsLoggedAsItIs | apps/api/src/assistant-interaction-broker.ts:113-243 | each step adds to the trail exactly what it did: requested, decided, cancelled, expired, or what policy decided |
| TelegramBridge.TelegramQuestionLedger.SweepExpired | apps/api/src/telegram-question-bridge.ts:76-85 | the sweep drops exactly the expired entries |
| TelegramBridge.TelegramQuestionLedger.ListByChat | apps/api/src/telegram-question-bridge.ts:67-69 | the entries of a chat in insertion order, expired ones included |
| TelegramBridge.QuestionDispatch.TapArrives | apps/api/src/telegram-question-bridge.ts:241-260 | a tap on a missing or expired entry ends; otherwise the handler suspends on authorization with the entry it saw |
| TelegramBridge.QuestionDispatch.TextArrives | apps/api/src/telegram-question-bridge.ts:350-373 | a typed reply picks the live matching entry that expires first |
| TelegramBridge.QuestionDispatch.Authorized | apps/api/src/telegram-question-bridge.ts:260-318 | what an authorized handler asks of the broker and does to the ledger, by kind of tap or text |
| BridgeRuns.BridgeRunIsABrokerRun | apps/api/src/telegram-question-bridge.ts:241-373 | whatever the handlers do, the broker goes through an ordinary broker run |
| BridgeRuns.AtMostOneAcceptedResolution | apps/api/src/telegram-question-bridge.ts:241-318 | across taps, typed replies, browser answers, cancellations and timeouts, no wait has two accepted resolutions |
| BridgeRuns.OldestMatchIsLive | apps/api/src/telegram-question-bridge.ts:350-373 | the entry a typed reply picks is live, matches, and none of the other live matches expires earlier |
| BridgeRuns.NoCallOnAnExpiredEntry | apps/api/src/telegram-question-bridge.ts:241-373 | no handler ever asks the broker about an entry that was expired when it looked it up |
| BridgeRuns.LateSelectLeavesADeadEntry | apps/api/src/telegram-question-bridge.ts:241-318 | a select authorized after another answer re-inserts an entry, which can no longer resolve anything |
| BridgeStories.TelegramAnswerIsDelivered | apps/api/src/telegram-question-bridge.ts:255-373 | an authorized handler resolves exactly the open promise of its question: typed text and picked options with those very words, a rejection with nothing; selecting, hinting and an empty pick resolve none |
| BridgeStories.ReplyPicksFromItsChat | apps/api/src/telegram-question-bridge.ts:350-364 | a typed reply goes to the entry of its own chat that is live, matches and expires first, and to none exactly when there is no such entry |
| BridgeStories.TapFindsItsMessage | apps/api/src/telegram-question-bridge.ts:248-254 | in every run a tap finds a live entry whose chat and message read like its own, and none exactly when there is no such entry |
| BridgeStories.LedgerAfterAuthorized | apps/api/src/telegram-question-bridge.ts:260-318 | an answered or rejected entry is forgotten, a selecting tap files it with the new selections, and nothing else in the ledger changes |
| BridgeStories.SweepKeepsTheLive | apps/api/src/telegram-question-bridge.ts:76-85 | a sweep keeps exactly the entries that have not expired |
| TurnControls.ActivityTurnControlRegistry.StartTurn | apps/api/src/activity-turn-controls.ts:33-51 | a known activity gets its existing turn back; an unknown one gets a new turn |
| TurnControls.ActivityTurnControlRegistry.BindConversation | apps/api/src/activity-turn-controls.ts:53-58 | binding moves the index entry and changes that one turn |
| TurnControls.ActivityTurnControlRegistry.CanQueue | apps/api/src/activity-turn-controls.ts:60-63 | for a request id that is not empty, whether an enqueue under it would be answered otherwise than unavailable, whatever it carries; the empty id is refused |
| TurnControls.ActivityTurnControlRegistry.EnqueueRequest | apps/api/src/activity-turn-controls.ts:65-93 | the answer is the one foreseen, and a request is queued exactly when the indexed turn is active and has not seen it |
| TurnControls.ActivityTurnControlRegistry.Stop | apps/api/src/activity-turn-controls.ts:95-103 | a stop request is taken exactly when the indexed turn is active |
| TurnControls.ActivityTurnControlRegistry.FinishTurn | apps/api/src/activity-turn-controls.ts:105-116 | finishing runs the oldest queued request, or ends the turn when none waits |
| TurnControlRuns.EveryTurnIsOrderly | apps/api/src/activity-turn-controls.ts:65-116 | after any operations, what ran followed by what waits is what was accepted, in order, each request once, and an ended turn has nothing waiting |
| TurnControlRuns.EndedTurnsStayEnded | apps/api/src/activity-turn-controls.ts:65-116 | from then on an ended turn stays ended, accepts nothing and runs nothing |
| TurnControlRuns.TurnStandsAsLastSaid | apps/api/src/activity-turn-controls.ts:95-116 | a turn stands as the last operation that reached it said, and runs while none has: a finish ends it with the given status when everything accepted has run and else keeps it going, a stop counts while it is not over |
| TurnControlRuns.AbortedByStopsExactly | apps/api/src/activity-turn-controls.ts:95-103 | a turn's work is told to abort exactly when a stop request reached it while it was not over |
| TurnControlRuns.AnswerIsWhatHappens | apps/api/src/activity-turn-controls.ts:65-93 | an enqueue is answered queued exactly when the request is accepted, changes nothing otherwise, and counts what waits then |
| TurnControlRuns.EmptyRequestIdIsQueued | apps/api/src/activity-turn-controls.ts:60-93 | the empty request id is queued, although canQueue refuses it |
| TurnControlRuns.IndexStaysSoundExactly | apps/api/src/activity-turn-controls.ts:53-58 | one operation keeps every index entry pointing to a turn bound to that conversation exactly unless it rebinds a turn indexed under the empty id |
| TurnControlRuns.IndexSoundThroughoutExactly | apps/api/src/activity-turn-controls.ts:53-58 | over a whole run the index is sound at every point exactly when no operation does that |
| TurnControlRuns.EmptyIdLeavesAStaleIndex | apps/api/src/activity-turn-controls.ts:53-58 | such a run exists |
| TurnControlRuns.BindKeepsTurnsFindableExactly | apps/api/src/activity-turn-controls.ts:53-58 | binding keeps every bound turn reachable through the index exactly when the conversation is not another turn's |
| TurnControlRuns.SharedConversationLosesATurn | apps/api/src/activity-turn-controls.ts:53-58 | two turns on one conversation: when the first moves on, the second is lost to the index |
| LoginThrottle.Throttle.TakeAttempt | apps/api/src/login-throttle.ts:56-75 | filtering, recording and pruning in place is the specified step, and the verdict is its verdict |
| LoginThrottle.Throttle.TakeFrom | apps/api/src/login-throttle.ts:32-75 | a direct loopback caller proceeds and leaves no trace; any other is counted under its socket address, and one with a forwarded claim always is |
| LoginThrottle.ExemptExactly | apps/api/src/login-throttle.ts:32-40 | whatever the allowance, a caller always proceeds without a trace exactly when it comes straight from one of the three loopback addresses; any other is counted under its address, a missing one as unknown |
| LoginThrottle.ForgetsOnlyTheDead | apps/api/src/login-throttle.ts:67-73 | another caller is forgotten only past 1024 callers and only when all its attempts are out of the window; while more than 1024 are left, each has one within it |
| LoginThrottle.SettingsCountWhenPositive | apps/api/src/login-throttle.ts:15-24 | a positive whole setting counts as it is, any other as its default of ten attempts and a minute |
| LoginThrottle.NoNumberExactly | apps/api/src/login-throttle.ts:59-66 | a caller is told no number of seconds exactly when it is counted and the allowance is not positive |
| LoginThrottle.ConfiguredThrottleTellsANumber | apps/api/src/login-throttle.ts:15-24 | with the configured options that never happens |
| LoginThrottle.DecisionsMatchFullHistory | apps/api/src/login-throttle.ts:56-75 | with time flowing forward, every decision is the one the full history of accepted attempts gives, despite filtering and pruning |
| LoginThrottle.NoWindowOverflows | apps/api/src/login-throttle.ts:56-75 | no interval (t - windowMs, t] ever holds more than maxAttempts accepted attempts of a key |
| LoginThrottle.ReturnedWaitIsExact | apps/api/src/login-throttle.ts:59-66 | the wait is at least a second; a later attempt is accepted exactly from the expiry of the oldest one on, so after the returned seconds and not a full second sooner |
| UiAssetCache.KeysDiffer | apps/api/src/server.ts:366-366 | two assets share a cache key exactly when path and encoding agree |
| UiAssetCache.AssetCache.Find | apps/api/src/server.ts:366-376 | a hit needs the key and the exact modification time |
| UiAssetCache.AssetCache.Keep | apps/api/src/server.ts:387-391 | the compression callback stores the body under the request's modification time, evicting the oldest entry when full |
| AssetCacheRuns.EveryHitIsCurrent | apps/api/src/server.ts:366-391 | with increasing modification times, every hit serves the compression of the file's present content in the encoding asked for, whatever the order of callbacks |
| AssetCacheRuns.StaleHitExactly | apps/api/src/server.ts:366-376 | in any run, a request is served a stale hit exactly when its entry was stored under the file's present time and from other content |
| AssetCacheHistory.StaleHitPossibleExactly | apps/api/src/server.ts:366-391 | for a history of edits, some order of requests and callbacks leaves a request to be served a stale hit exactly when the path once had its present modification time and was another file then or since |
| AssetCacheRuns.CacheIsBounded | apps/api/src/server.ts:322-323 | the cache never holds more than 64 entries |
| AssetCacheRuns.StoreDropsOnlyTheOldest | apps/api/src/server.ts:387-391 | storing an asset drops the entry stored first when there are 64, and keeps every other |
| AssetCacheRuns.SameTimeServesStale | apps/api/src/server.ts:367-376 | such a hit exists, after a change that keeps the modification time |
| ReadPreview.CollectLines | apps/api/src/assistant-execution-projection.ts:256-270 | the walk collects the numbered lines and the last valid total |
| ReadPreview.KeepWithinBudget | apps/api/src/assistant-execution-projection.ts:273-285 | the kept lines are the longest prefix within the budget, at least the first line, and sliced is set exactly when lines were dropped |
| ReadPreview.JoinLines | apps/api/src/assistant-execution-projection.ts:286-287 | the kept lines are joined by newlines |
| ReadPreview.ParseReadOutput | apps/api/src/assistant-execution-projection.ts:271-294 | the result is unknown exactly when there is neither a numbered line nor a total; otherwise it joins the longest allowed prefix |
| ReadPreview.PreviewFitsExactly | apps/api/src/assistant-execution-projection.ts:273-287 | the preview is shorter than the budget exactly when the first line is |

## Left out

* Message wording, labels, categories, log and attribution fields, payload copying, and the kind and summary of muted aggregates: no property rests on them.
* `localeCompare` is modelled as the lexicographic order on characters; the proofs use only that it is a total order on texts.
* The diagnostic, observer-finding and Telegram-pairing folds of `attention.ts`: the same last-writer pattern with nothing to add.
* `list()` of the turn control registry and `count()` of the session registry: plain readings.
* `createdAt` of session bindings, participants' display metadata, audit timestamps, latencies and reasons.
* Number parsing of the throttle's environment settings, HTTP requests and responses, content negotiation and cache headers.
* Regular-expression matching of read output: lines arrive already classified.
* `toggleSelection`, `matchTextAnswer` and `selectionsToAnswers` of the Telegram bridge: their results are parameters of the steps that use them.
* The deduplication of reasoning blocks in a turn, permission policy evaluation, and delivery of question answers: in the turn they are status chunks between awaits that may end or throw.
* A turn's work before the prompt is submitted, and consumer returns there: nothing has to be settled yet.
* The synchronous stretches of a turn between two ignored events are separate steps, which only adds interleavings.
* The event bus is taken to deliver a turn's mirrors; without a bus nothing is mirrored.
* `retainNewest` and the queries of the activity store.
* Deleting a file, and failures to open it; a read that overlaps a change may return anything.
* Sockets, SQLite, the OpenCode, Codex and Telegram clients, and the network.
- TurnRuns.AbortedExactly: that the abort request reaches the runtime is not modelled; its failure is ignored by the code.
