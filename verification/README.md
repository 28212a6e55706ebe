# Verified model of the engine's state machines

A coding engine keeps chat histories within a context budget, writes files through one funnel with a
journal, runs sub-agents under a verification protocol, feeds events to slow clients, and pumps user
messages through turns. Each of these is a small state machine or algorithm with promises that span many
calls. This project models them in Dafny and proves those promises for all inputs and all runs.

Check everything with `dafny verify dfyconfig.toml`.

## What is modelled

| files | subject |
|---|---|
| `History`, `Rewriting`, `Dropping`, `DroppingProofs`, `Compactor` | tool-call histories as a grammar, the validator as its recogniser, and the five stages of compaction |
| `Lines`, `Decimals`, `UnifiedDiff`, `DiffRoundTrip`, `PatchText` | unified diffs: printing, parsing, locating, applying, and the round trip |
| `Wrappers`, `Sequences` | shared shapes |
| `TextEdits` | LSP text edits applied back to front against simultaneous substitution |
| `FileId` | newline style, byte-order mark and final newline when a file is read and written |
| `Journal`, `WriteFunnel`, `UndoProofs`, `FunnelProofs`, `Operations`, `LostUpdates` | the write funnel: edits, undo, multi-file edits with rollback, and several agents with their trackers |
| `Orchestrator`, `OrchestratorProofs` | spawning, the single coder, the verifier gate, survey caps and the ledger of unverified files |
| `AgentLoop` | the rounds of one agent, their budgets, and the history at every model call |
| `Subscriber`, `SubscriberProofs` | the bounded event queue of a client |
| `Session` | the turn pump and the idle flag |

Where the source updates an object, the model is a class with the same fields whose methods are proved
equal to functions on its state; the runs are then sequences of those functions. Where the source
computes a value the model is a function. Loops are loops.

## How the outside is modelled

- The language model, the judge, the user, tools and failures are inputs: every await is a value that says
  what came back or what was raised.
- One stretch between two awaits is one step. A task can be cancelled before its first step, when it never
  enters its body; the events for that are `CancelledEarly` and `TurnCancelledEarly`. They are allowed for any
  running task, which only adds runs: the conditions hold for those too, and the runs given are real ones.
- The JSON length of a message is an arbitrary weight, and a history's size is the sum of its weights.
- SHA-256 is injective, so a digest stands for the content. Valid UTF-8 stands for its characters.
- The opcodes of `difflib` are any script that tiles both texts, with a common line between two groups.
- New batch ids and agent ids do not repeat. The journal is a sequence of rows.
- Syntax and binding gates, write globs and path guards are arbitrary predicates.

## Results that differ from what the names promise

- A hunk whose deleted line starts with `-- ` or whose added line starts with `++ ` is cut short without an
  error (`ReadsBackIff`), and a hunk without an old side is applied one line too low (`PureInsertionIff`).
- A patch does not record the final newline (`PatchGivesNewText`).
- Two LSP insertions at one position come out in reverse (`SamePositionIff`).
- Undoing the deletion or the renaming of an empty file makes a directory (`UndoOperationIff`).
- A failed multi-file edit restores only the last fifty files written, and leaves rows behind that make
  the next undo refuse (`AllOrNothingIff`, `UndoAfterRollbackIff`).
- A collapse of the event queue can lose two events and count one (`CollapseLosesTwo`).
- An exception after a compaction cuts the history at a stale position: it can be left with an open tool round, or
  cut inside one (`FaultPairedIff`, `StaleMarkerRun`).
- For equal texts the patch is not empty: the two file lines are printed, because the test for an empty patch is made
  on a generator (`EqualTextsPrintFileLines`).
- A verifier cancelled before its first step shuts out every later coder (`GateIsHeldIff`, `EarlyCancelRun`), and a
  turn cancelled before its first step strands the messages behind it (`WorkConservedIff`, `EarlyCancelReorders`).
- An edit that ends past the end of a text without a final break deletes what was inserted there
  (`BackToFrontIsSimultaneous`, `ColumnPastTheEnd`).
- A multi-file edit can overwrite what its agent has not seen (`SeveralLoseNothingIff`, `SeveralLoseUpdate`).
- A survey over its cap that the budget refuses has used up its retry (`BudgetBurnsRetryIff`, `RetryIsLost`).
- The summary swallows a user message at position 1 (`SummaryKeepsUserIff`).
- A trimmed tool result can be longer than the original (`TrimCanLengthen`).

## Model

| member | source | states |
|---|---|---|
| History.ValidateHistory | agents/compactor.py:103-139 | the one-pass validator; it reports no error exactly for the histories of the pairing grammar, and its error list is the recogniser's |
| History.OpenGroup | agents/compactor.py:113-121 | the keys and errors of one assistant message with tool calls |
| History.NoErrorsIffPaired | agents/compactor.py:103-139 | a history has no error if and only if it is a sequence of plain messages and complete tool groups |
| History.PairedConcat | agents/compactor.py:103-139 | two paired histories joined are paired |
| History.PairedRest | agents/compactor.py:103-139 | what follows a paired front in a paired history is paired |
| History.CutIsBetween | agents/compactor.py:317-332 | the test on two neighbouring messages decides exactly whether a cut separates a tool group |
| History.CutTransfers | agents/compactor.py:317-332 | the stretch between two group boundaries is a paired history |
| History.SkeletonPairs | agents/compactor.py:185-210 | pairing depends only on roles, calls and call ids, so rewriting contents keeps it |
| History.SystemsFirstPaired | agents/agent_loop.py:943-951 | moving the system messages of a paired history to its front keeps it paired |
| History.OpenSince | agents/compactor.py:113-128 | while only tool messages follow an assistant message with calls, the calls still open are those none of them has answered |
| History.NothingOpen | agents/compactor.py:103-139 | no call is open at the end unless only tool messages follow the last assistant message with calls |
| History.ErrorIff | agents/compactor.py:103-139 | each error other than those of a single call is reported exactly when its message is misplaced; a group open at the end is one more |
| History.PlaceholdersDiffer | agents/compactor.py:113-121 | calls without an id are told apart by their place |
| Rewriting.PruneScreenshots | agents/compactor.py:185-210 | the loop rewrites exactly the screenshots before the last `keep` ones |
| Rewriting.TrimToolResults | agents/compactor.py:295-314 | the loop trims exactly the old tool results and adds up the characters saved |
| Rewriting.PrunedSkeleton | agents/compactor.py:185-210 | pruning keeps the structure, hence the pairing |
| Rewriting.TrimmedSkeleton | agents/compactor.py:295-314 | trimming keeps the structure, hence the pairing |
| Rewriting.PruneKeepsNewest | agents/compactor.py:185-210 | the screenshots left are the last `keep` ones, unchanged and in order |
| Rewriting.TrimIdempotent | agents/compactor.py:295-314 | trimming again changes nothing and reports no saving |
| Rewriting.TrimCanLengthen | agents/compactor.py:295-314 | a trimmed result gets longer exactly when it exceeds the limit by less than the notice |
| Rewriting.PrunedAt | agents/compactor.py:185-210 | a screenshot loses its images exactly when `keep` newer screenshots follow it, and no other message changes |
| Rewriting.TrimmedAt | agents/compactor.py:295-314 | a tool result is trimmed exactly when `keep` newer results follow it, and no other message changes |
| Rewriting.SavingIsDifference | agents/compactor.py:295-314 | the saving is the text length before minus the text length after |
| Rewriting.BlocksJoin | agents/compactor.py:151-176 | text blocks are joined in order with one newline between two; images leave nothing |
| Rewriting.StripMeans | agents/compactor.py:198-208 | what is stripped from the ends is space, and the rest begins and ends with something else |
| Rewriting.OmitKeepsText | agents/compactor.py:198-208 | the text beside an omitted image survives in front of the notice; role and call id stay |
| Rewriting.TrimKeepsFront | agents/compactor.py:300-312 | a long result keeps its first 400 characters in front of the notice, a short one everything |
| Rewriting.FewImagesLeft | agents/compactor.py:185-210 | at most `keep` tool results hold an image after pruning |
| Rewriting.PrunedPairedIff | agents/compactor.py:185-210 | pruning leaves a history paired exactly when it was |
| Dropping.GroupBoundary | agents/compactor.py:317-332 | the loop moves a cut to the next boundary |
| Dropping.BoundaryIsBetween | agents/compactor.py:317-332 | from a cut of at least 2 the boundary found lies between groups, both sides paired |
| Dropping.LastExchangeStart | agents/compactor.py:624-628 | the position of the last user message, or the fallback |
| Dropping.AtomicGroups | agents/compactor.py:364-376 | the groups tile the stretch between the system prompt and the last exchange |
| Dropping.DropOldest | agents/compactor.py:335-361 | the walk from the oldest group computes the specified history and saving |
| Dropping.ApplyEvictionOrder | agents/compactor.py:395-426 | the greedy eviction in any order computes the specified history, saving and count |
| Dropping.DroppingHelps | agents/compactor.py:86-100 | removing messages never raises the token estimate |
| Dropping.EstimateMeans | agents/compactor.py:74-83 | the estimate is one token for four characters of JSON, four for each message and eight for each call |
| Dropping.JsonLengthAdds | agents/compactor.py:74-83 | the JSON length of two joined histories is the sum of theirs |
| Dropping.FloorIsMaximum | agents/compactor.py:86-90 | the prompt tokens last reported are a lower bound for the scaled estimate, which is the larger of the two |
| Dropping.OverBudgetIff | agents/compactor.py:86-100 | a history is over budget exactly when its scaled estimate reaches the whole tokens of the trigger; rounding the estimate decides nothing |
| DroppingProofs.AnyEvictionIsPaired | agents/compactor.py:364-426 | with a system prompt and a user message, removing any set of atomic groups keeps the history paired, so the validate-and-skip branch is dead |
| DroppingProofs.EvictionSafeIff | agents/compactor.py:364-426 | removing any set of groups is safe if and only if the first message opens no tool group and the last exchange does not start at a tool result |
| DroppingProofs.IdentityOrderIsOldestFirst | agents/compactor.py:335-426 | with the identity order eviction returns what the oldest-first walk returns, saving included |
| DroppingProofs.OldestStopsAtSmallest | agents/compactor.py:335-361 | oldest-first drops the smallest non-empty front of groups that fits, or all of them; the saving is the weight of what it removed |
| DroppingProofs.EvictionOutcome | agents/compactor.py:395-426 | any full order ends under budget or at the system prompt and the last exchange, and the saving is the weight removed |
| DroppingProofs.OldestOutcome | agents/compactor.py:335-361 | the same for oldest-first |
| DroppingProofs.EvictionStopsAtSmallest | agents/compactor.py:395-426 | in any full order eviction drops the smallest non-empty front of the order that fits, or all groups |
| DroppingProofs.OldestMeans | agents/compactor.py:335-361 | on any history with something to drop, which front of groups oldest-first drops, and when it drops none |
| DroppingProofs.EvictionSettles | agents/compactor.py:395-426 | on any history and in any order the saving is the weight that went, and a result still over budget kept only groups whose removal would break the pairing |
| Compactor.SummarizeHistory | agents/compactor.py:587-621 | the first system message if there is one, then one system message with the fixed heading and the text of the model, then the history from a group boundary on; the saving is charged with that text |
| Compactor.SummarizedFolds | agents/compactor.py:592-621 | the same of the specification, without naming how it is computed: prompt, heading and text, and the messages from a cut of at least 2 that splits no group |
| Compactor.SummaryGainMeans | agents/compactor.py:609-615 | the saving is the weight of the head without images, less that of the prompt and the length of the text, and never negative |
| Compactor.SummarizedPaired | agents/compactor.py:587-621 | summarizing keeps the pairing |
| Compactor.SummaryKeepsUserIff | agents/compactor.py:587-621 | the last user message survives a summary if and only if two messages precede it, and then so does all that follows it |
| Compactor.SwallowedUserExample | agents/compactor.py:592-595 | a second message that is the only user message is folded into the summary |
| Compactor.SortedByScore | runtime/judge_decisions.py:446-452 | the eviction order: every group once, ascending by score, equal scores in their old order |
| Compactor.DropByRelevance | agents/compactor.py:429-486 | with an enforced verdict on two groups or more the groups go in ascending order of score, equal scores in their old order, up to the smallest front that fits; otherwise, an advisory verdict included, the oldest-first result; either way under budget or at the minimum, the saving exact, the prompt and the last exchange kept |
| Compactor.SummarizeStage | agents/compactor.py:538-546 | when the stage runs, what it saves and keeps, and the text of the model it puts second |
| Compactor.TrimHarder | agents/compactor.py:547-553 | the second trim, taken only when it saves something |
| Compactor.DropStage | agents/compactor.py:554-573 | the last stage ends under budget or at the minimum with an exact saving, and keeps prompt, pairing and the last exchange |
| Compactor.Shorten | agents/compactor.py:534-553 | the history before the last stage and the characters saved: trimmed, summarized with the text of the model when still over budget, trimmed harder when still over budget |
| Compactor.Compact | agents/compactor.py:508-584 | each stage runs only while the history is over budget, and the last ends under budget or with nothing left to drop; a summary holds the text of the model behind the fixed heading; an enforced verdict alone orders the eviction; the report has the saving, the estimate and the strategy that go with it; from a paired history the RuntimeError is never reached; the result is paired, starts with the same system prompt, and keeps the last user message and all that follows it when two messages precede it |
| Subscribers.Subscriber.Put | runtime/subscriber.py:122-139 | putting an event: a streaming one is queued exactly if it fits and counted as dropped otherwise; for a durable one the newest streaming events go, no more than needed, until there is room in count and bytes or none is left, and then it is queued or, if events that may not be dropped fill the queue, collapses it; the byte counter stays the exact sum of sizes |
| Subscribers.Subscriber.EvictDroppable | runtime/subscriber.py:147-159 | eviction removes streaming events, newest first, until there is room, and tells whether a non-empty queue now has room |
| Subscribers.Subscriber.CollapseOverflow | runtime/subscriber.py:161-183 | the newest event gives way to the overflow notice |
| Subscribers.Subscriber.GetNowait | runtime/subscriber.py:185-203 | taking returns the oldest event and may queue a loss notice |
| Subscribers.Subscriber.MaybeNoteRecovery | runtime/subscriber.py:211-226 | the loss notice: when it is queued and what it resets |
| Subscribers.EvictExhausts | runtime/subscriber.py:147-159 | eviction stops only when there is room or nothing droppable is left |
| Subscribers.PutMeans | runtime/subscriber.py:122-159 | the same of the specification, without naming how eviction is computed |
| Subscribers.NoticesWeighTheirText | runtime/subscriber.py:161-226 | a notice weighs its flat size and the length of the text it carries |
| Subscribers.SecondEvictionIsDead | runtime/subscriber.py:128-136 | the second eviction of `put` never finds anything |
| SubscriberProofs.EveryRunIsSafe | runtime/subscriber.py:122-226 | over all runs: events are seen in the order they were put, each is delivered, queued, reported or counted as dropped, or overwritten; durable events are lost only in collapses; the queue keeps to its capacity; drops pending mean events pending, and an overflow is pending only while drops are |
| SubscriberProofs.CollapseIffFull | runtime/subscriber.py:133-136 | the queue collapses on an event exactly when events it may not drop already fill it |
| SubscriberProofs.DrainedClientKnowsAll | runtime/subscriber.py:197-226 | a client that drained its queue, without a collapse, has every durable event and a notice for every event it missed |
| SubscriberProofs.SilentDropIff | runtime/subscriber.py:122-133 | in any state reached with an empty queue and no drop pending, a streaming event is lost without trace exactly when it exceeds the byte ceiling |
| SubscriberProofs.DurableWithinBytes | runtime/subscriber.py:122-139 | over every run: after a durable event that does not collapse the queue, the queue ends with it and is within its bytes or holds no streaming event |
| SubscriberProofs.CollapseLosesTwo | runtime/subscriber.py:161-183 | one collapse can lose two events while the counter moves by one |
| Orchestrators.Orchestrator.SpawnChild | agents/orchestrator.py:667-811 | one spawn: every refusal in order, the reservation, the start, and what a failed launch gives back |
| Orchestrators.Orchestrator.UseRetry | agents/orchestrator.py:733-740 | going over the survey cap uses up the one retry |
| Orchestrators.Orchestrator.TakeSlot | agents/orchestrator.py:743-752 | the reservation, counted and filed under its owner |
| Orchestrators.Orchestrator.StartRun | agents/orchestrator.py:756-787 | what starting the child task records |
| Orchestrators.Orchestrator.GiveUp | agents/orchestrator.py:772-785 | what a failed launch undoes |
| Orchestrators.Orchestrator.ReleaseVerifier | agents/orchestrator.py:373-383 | releasing a verifier opens the gate with the last one |
| Orchestrators.Orchestrator.ChildFinished | agents/orchestrator.py:866-901 | the step after a run: ledger entry, survey retry, release of the gate |
| Orchestrators.Orchestrator.BrowserClosed | agents/orchestrator.py:907-923 | the step that starts verification, up to the merge gate |
| Orchestrators.Orchestrator.Verify | agents/orchestrator.py:941-992 | reviewer and tester for a finished coder; the ledger is cleared only if all that are wanted start |
| Orchestrators.Orchestrator.ResetUserMessageSpawns | agents/orchestrator.py:293-300 | a new user message forgets survey counts and retries |
| Orchestrators.Orchestrator.ToolsDispatched | agents/orchestrator.py:813-824 | surveys close for the turn if one has started since tools were last dispatched |
| OrchestratorProofs.EveryRunIsSafe | agents/orchestrator.py:667-992 | every reachable state: one live coder at most, live children within the budget, the two verifier indexes mutually inverse with no empty set and a verifier behind each entry that runs or was cancelled before its first step, surveys within their caps |
| OrchestratorProofs.WithdrawnIsUndone | agents/orchestrator.py:373-383 | withdrawing a verifier just filed leaves both indexes as they were |
| OrchestratorProofs.FailedLaunch | agents/orchestrator.py:772-785 | a failed launch costs an id and nothing else of the gate |
| OrchestratorProofs.GateIsHeldIff | agents/orchestrator.py:373-383 | a running verifier is behind every entry of the gate if and only if no filed verifier was cancelled before its first step |
| OrchestratorProofs.ShutGateIff | agents/orchestrator.py:679-706 | the gate is shut exactly when a filed verifier runs or an early cancellation has stranded one |
| OrchestratorProofs.StuckIsStranded | agents/orchestrator.py:373-383 | over every run, the verifiers filed but done are exactly those cancelled before their first step while filed |
| OrchestratorProofs.IdleOrchestratorTakesACoderIff | agents/orchestrator.py:679-721 | with no child left the gate is open, and a coder starts whenever its launch succeeds, if and only if no verifier was stranded |
| OrchestratorProofs.StartsIff | agents/orchestrator.py:675-742 | in every reachable state a spawn starts if and only if the listed conditions hold, whatever their order, and its launch succeeds |
| OrchestratorProofs.SurveysPerMessage | agents/orchestrator.py:722-747 | for one user message at most cap + 1 surveys of a profile start |
| OrchestratorProofs.StartsAreCounted | agents/orchestrator.py:746-747 | the counter is the number of surveys started since the last user message |
| OrchestratorProofs.SurveysClosedIff | agents/orchestrator.py:813-824 | over every run surveys are closed if and only if, since the last user message or turn, a survey started and tools were dispatched after it |
| OrchestratorProofs.ClosedSurveysAreRefused | agents/orchestrator.py:722-732 | then every survey asked for is refused |
| OrchestratorProofs.TurnOpensSurveys | agents/orchestrator.py:293-305 | a new turn opens surveys again, up to the cap for one user message |
| OrchestratorProofs.MessageOpensSurveys | agents/orchestrator.py:293-300 | a new user message opens surveys again |
| OrchestratorProofs.RetryIff | agents/orchestrator.py:733-884 | over every run, since the last user message, the retry of a survey is used up exactly when one over its cap was let through, and there exactly when one came back incomplete and it is not used up |
| OrchestratorProofs.RefusalHolds | agents/orchestrator.py:675-785 | a refusal names a reason that holds |
| OrchestratorProofs.FiledIff | agents/orchestrator.py:676-752 | a child that starts is filed under the owner given, a verifier without one that continues nothing under the last coder, and no other child is filed |
| OrchestratorProofs.WritersAreRecorded | agents/orchestrator.py:756-787 | over every run the runs recorded as continuable are exactly those of coders and testers |
| OrchestratorProofs.OnlyFinishedWorkIsVerified | agents/orchestrator.py:866-923 | only the finished work of a coder is verified; any other end leaves gate and ledger alone |
| OrchestratorProofs.ClosingLeaves | agents/orchestrator.py:903-923 | a child that closes reports next, or leaves at once while everything is aborted |
| OrchestratorProofs.CancelEnds | agents/orchestrator.py:322-337 | a cancellation before the first step, or at one of the last two awaits, ends the child and changes nothing else |
| OrchestratorProofs.LedgerHoldsOwedFiles | agents/orchestrator.py:866-992 | over all runs, a file touched by a finished coder stays in the ledger until a reviewer whose task lists it runs, with a tester unless the list is documentation only |
| OrchestratorProofs.AllStartedIsCovered | agents/orchestrator.py:941-992 | when all verifiers are reported started, they are there, running and filed |
| OrchestratorProofs.FinishKeepsLedgerIff | agents/orchestrator.py:866-884 | the end of a coder's run keeps the ledger promise if and only if no other coder waits for verification with a list that misses a new file; the single coder rules that out |
| OrchestratorProofs.TwoCodersLoseFiles | agents/orchestrator.py:866-991 | with two coders and everything else in order, verifying the files of the first clears a file of the second that nobody was asked to look at |
| OrchestratorProofs.ClearedIsListed | agents/orchestrator.py:983-991 | in every reachable state the coder about to be verified is the only one live and its list covers the ledger |
| OrchestratorProofs.BudgetBurnsRetryIff | agents/orchestrator.py:733-742 | a refusal for want of budget changes nothing if and only if it is not for a survey over its cap; then the one retry is gone and the survey refused from there on |
| OrchestratorProofs.RetryIsLost | agents/orchestrator.py:733-742 | a run in which asking too early loses the retry: the researcher is refused when there is room again, and would have started otherwise |
| OrchestratorProofs.ReviewerMayOverlapCoder | agents/orchestrator.py:679-694 | the model can start a reviewer while the coder still works |
| OrchestratorProofs.EarlyCancelJamsTheGate | agents/orchestrator.py:373-383 | once a filed verifier was cancelled before its first step, no run that goes on from there starts a coder |
| OrchestratorProofs.EarlyCancelRun | agents/orchestrator.py:322-337 | a run of three steps that gets there |
| Lines.SplitLosesNothing | runtime/tools/edits.py:92-93 | the lines of a text joined are the text |
| Lines.BodiesOfUnlines | runtime/tools/edits.py:235-235 | splitting terminated lines gives them back |
| Lines.JoinOfBodies | runtime/tools/edits.py:288-303 | a text with plain newlines is its lines joined, the final newline put back |
| Lines.FirstLineEnds | runtime/tools/edits.py:235-235 | each of the ten line-ending characters ends a line and is taken off it, a return and the newline after it together |
| Lines.OneLine | runtime/tools/edits.py:235-235 | a text without any of them is one line |
| UnifiedDiff.FormatUnifiedDiff | runtime/tools/edits.py:91-114 | the printing loops give the header and body lines of each group |
| UnifiedDiff.FormatOp | runtime/tools/edits.py:105-113 | the lines one opcode prints |
| UnifiedDiff.ParseUnifiedDiff | runtime/tools/edits.py:233-284 | the parsing loops give the hunks of the patch, or the error for none |
| UnifiedDiff.ReadBody | runtime/tools/edits.py:247-270 | the body of one hunk: old side, new side, and where it stops |
| UnifiedDiff.LocateHunk | runtime/tools/edits.py:306-329 | a hunk with an old side goes to the nearest place within the fuzz it fits, above before below, and is refused when there is none; one without goes to its start line or the end of the text |
| UnifiedDiff.SortDescending | runtime/tools/edits.py:293-293 | the located hunks in descending order, none lost |
| UnifiedDiff.SortIsStable | runtime/tools/edits.py:293-293 | hunks located at one place keep their order |
| UnifiedDiff.HunksToText | runtime/tools/edits.py:287-303 | locating all, splicing back to front, and joining with the old final newline |
| UnifiedDiff.ApplyPatchText | runtime/tools/edits.py:332-333 | parse, then apply with the default fuzz |
| DiffRoundTrip.HeaderReadsBack | runtime/tools/edits.py:39-39 | the header pattern reads back the numbers printed |
| DiffRoundTrip.HeaderIff | runtime/tools/edits.py:39-39 | a line is a hunk header exactly when it is two ranges between the marks, each a numeral with an optional count that is 1 when it is not there, whatever follows |
| DiffRoundTrip.RemarkIsIgnored | runtime/tools/edits.py:251-253 | a remark that starts with a backslash is passed over wherever it stands in a body |
| DiffRoundTrip.BareLineIsContext | runtime/tools/edits.py:254-269 | a line without a mark is read as a context line, an empty one included |
| DiffRoundTrip.SidesOfGroup | runtime/tools/edits.py:98-113 | the body lines of a group hold exactly its old and its new lines |
| DiffRoundTrip.ReadsBackIff | runtime/tools/edits.py:247-253 | parsing gives back the printed hunks if and only if no deleted line starts with "-- " and no added line with "++ " |
| DiffRoundTrip.AllLocatedIff | runtime/tools/edits.py:306-320 | all printed hunks are located where they belong if and only if each has an old side or stands at the end |
| DiffRoundTrip.SplicedBackwards | runtime/tools/edits.py:293-296 | splicing the hunks of a tiling script back to front gives the new lines |
| DiffRoundTrip.RoundTrip | runtime/tools/edits.py:91-303 | printing any tiling edit script, parsing and applying it gives the new lines |
| DiffRoundTrip.PureInsertionIff | runtime/tools/edits.py:104-104 | a hunk that only inserts before the end lands one line low: right only if the inserted lines commute with that line |
| PatchText.PatchGivesNewText | runtime/tools/edits.py:91-303 | the round trip on whole texts with plain newlines: the new lines always, the new text if and only if both agree on the final newline |
| PatchText.RejoinedIff | runtime/tools/edits.py:297-303 | when putting back the old final newline is right |
| PatchText.EqualTextsPrintFileLines | runtime/tools/edits.py:95-98 | a script without groups is one for equal texts, and prints exactly the two file lines, which are an error to parse |
| PatchText.NoHunksIff | runtime/tools/edits.py:95-283 | a printed patch is an error to parse if and only if no group was printed |
| PatchText.ForeignBreakPrintsTwice | runtime/tools/edits.py:117-120 | a line ending in another line break prints as two lines |
| TextEdits.LspOffset | runtime/tools/edits.py:348-357 | the offset of a UTF-16 position, by lines and prefix sum |
| TextEdits.OffsetByLines | runtime/tools/edits.py:348-357 | the prefix-sum form and the line-by-line form agree |
| TextEdits.AtIff | runtime/tools/edits.py:348-357 | an offset is all lines before the position and as many characters of its line as encode to its first columns in UTF-16; a negative column is 0, a negative line the start, a line past the last the end |
| TextEdits.IndexIff | runtime/tools/edits.py:355-357 | the characters before a column are those whose UTF-16 encoding is the encoded line cut off there |
| TextEdits.ApplyTextEdits | runtime/tools/edits.py:336-345 | the edits applied in descending order, each offset on the text so far |
| TextEdits.SortMeans | runtime/tools/edits.py:337-339 | sorting keeps every edit, puts later starts first, and leaves edits that start together in order |
| TextEdits.OffsetIsLocal | runtime/tools/edits.py:348-357 | a steady position keeps its offset in any text that agrees up to it |
| TextEdits.InDocumentMeans | runtime/tools/edits.py:348-357 | the positions inside the document, read off the lines |
| TextEdits.SteadyMeans | runtime/tools/edits.py:348-357 | the steady positions: those inside the document, and every column of a line that ends in a break |
| TextEdits.FarMoves | runtime/tools/edits.py:348-357 | any other position moves: after an insertion at the end of the text it reaches over at least one inserted character |
| TextEdits.BackToFrontIsSimultaneous | runtime/tools/edits.py:336-345 | back-to-front application equals one simultaneous substitution with offsets in the original text unless an edit that reaches past the end of a text without a final break follows one that inserts something; if and only if, when all edits start in the text |
| TextEdits.DistinctStartsReverse | runtime/tools/edits.py:337-339 | with distinct starts the descending order reverses the prescribed one |
| TextEdits.MeetsTheProtocol | runtime/tools/edits.py:336-345 | with distinct starts the result is the substitution section "TextEdit[]" of LSP 3.17 prescribes, on the same condition |
| TextEdits.SamePositionIff | runtime/tools/edits.py:337-339 | two insertions at one position come out reversed: right if and only if they commute |
| TextEdits.ColumnPastTheEnd | runtime/tools/edits.py:355-357 | an input for the other case: a column past the end deletes inserted text |
| FileId.NormalizedHasNoReturn | runtime/tools/fileid.py:95-105 | decoded text has no carriage return |
| FileId.DetectsTheStyle | runtime/tools/fileid.py:56-66 | on data with one newline style that style is detected |
| FileId.DetectMeans | runtime/tools/fileid.py:56-66 | on mixed data the style found is that of most line breaks, counted by position; CRLF wins a tie, and LF one with CR |
| FileId.RoundTripIff | runtime/tools/fileid.py:95-143 | decoding and rendering gives the file back if and only if it uses one newline style, byte-order mark included |
| FileId.RereadIff | runtime/tools/fileid.py:95-143 | a rendered edit decodes to the edited text, up to the final-newline rule, with the same mark, if and only if no mark is made up from a leading U+FEFF |
| FileId.StyleSurvives | runtime/tools/fileid.py:131-143 | the newline style survives while a newline is left, and every written file has one style |
| FileId.FinalNewlineSurvivesIff | runtime/tools/fileid.py:131-140 | the final-newline flag survives except when a text for a file without one ends in two |
| Journals.Journal.Record | runtime/store/edits.py:55-98 | a row is appended with the next id |
| Journals.Journal.RecentRows | runtime/store/edits.py:101-117 | the newest rows of a session, at most `limit` |
| Journals.Journal.LastBatchRows | runtime/store/edits.py:120-158 | the rows of the newest batch of a session |
| Journals.RecentIff | runtime/store/edits.py:101-117 | a row is among the recent ones exactly when fewer than `limit` rows of the session are newer |
| Journals.LastBatchIff | runtime/store/edits.py:120-158 | the last batch holds exactly the rows of the session that share the batch of its newest row, oldest first; a newest row without a batch stands alone |
| Journals.NoLastBatchIff | runtime/store/edits.py:120-158 | there is none exactly when the session has no row |
| Journals.NewBatchIsLast | runtime/store/edits.py:120-158 | a freshly recorded batch is the last batch |
| WriteFunnel.FileTracker.Mark | runtime/tools/tracker.py:10-11 | the tracker keeps the latest digest of a path |
| WriteFunnel.FileTracker.Get | runtime/tools/tracker.py:13-14 | the digest last marked for a path, if any |
| WriteFunnel.Funnel.ApplyEdit | runtime/tools/edits.py:437-606 | a single edit or creation: an error with its reason and nothing changed, or file, journal row and digest written; the bytes written read back as the text asked for up to the final-newline rule, with the mark, the one newline style and the final newline of the old file or of the sibling |
| WriteFunnel.PrepareEditMeans | runtime/tools/edits.py:453-537 | of an edit, by decoding the file before and after: which guard refuses it and in what order, when it changes nothing, and what the bytes written hold |
| WriteFunnel.PrepareCreateMeans | runtime/tools/edits.py:453-537 | the same for a new file against its sibling |
| WriteFunnel.PrepareAllMeans | runtime/tools/edits.py:799-811 | the same for each file of several; the first that is refused gives the error |
| WriteFunnel.Funnel.Commit | runtime/tools/edits.py:539-589 | the write, the journal row and the digest of one file |
| WriteFunnel.Funnel.DeleteFile | runtime/tools/edits.py:1142-1198 | deletion with its journal row and digest |
| WriteFunnel.Funnel.RenameFile | runtime/tools/edits.py:1201-1292 | renaming a file as a creation and a deletion in one batch |
| WriteFunnel.Funnel.ApplyWorkspace | runtime/tools/edits.py:790-821 | prepare all, commit in order, roll back when a write fails |
| WriteFunnel.Funnel.CommitEach | runtime/tools/edits.py:812-817 | the commit loop up to the write that fails |
| WriteFunnel.Funnel.RollBack | runtime/tools/edits.py:824-846 | the rollback loop, newest first |
| WriteFunnel.Funnel.UndoLast | runtime/tools/edits.py:940-1048 | undo: all checks before all writes, a refusal changes nothing |
| UndoProofs.RefusedIff | runtime/tools/edits.py:948-971 | undo is refused exactly when a file of the last batch is not as the edit left it, names the newest of these, and has written nothing |
| UndoProofs.UndoRestoresIff | runtime/tools/edits.py:975-1013 | undo restores the disk from before the batch if and only if no empty file was deleted or renamed in it |
| UndoProofs.SecondUndoReapplies | runtime/tools/edits.py:940-1048 | a second undo applies the batch again |
| Operations.PerformedDid | runtime/tools/edits.py:453-606 | every successful operation records rows that explain exactly what it did to the disk |
| Operations.OperationWrites | runtime/tools/edits.py:453-821 | every operation that succeeds has left on disk what it was asked for: edited and new files with their mark, newline style and final newline, deleted and renamed ones where the guards allow it, all others untouched |
| Operations.RefusedForAReason | runtime/tools/edits.py:437-1292 | an operation that fails had one of the listed reasons to, in their order |
| Operations.OperationIsTracked | runtime/tools/edits.py:437-1292 | after an operation the tracker holds the digest of every path it wrote, and no other digest has changed |
| Operations.UndoOperationIff | runtime/tools/edits.py:940-1048 | any edit, creation, deletion, rename or multi-file edit is undone exactly, unless it deleted or renamed an empty file |
| Operations.UndoTwiceReapplies | runtime/tools/edits.py:940-1048 | undoing any operation twice gives its result again |
| FunnelProofs.AllOrNothingIff | runtime/tools/edits.py:790-846 | a failed multi-file edit leaves the original bytes if and only if each written file kept its bytes or has a row among the last fifty and can be written back |
| FunnelProofs.FoundIff | runtime/tools/edits.py:831-836 | the rollback finds a row exactly when it is among the last fifty |
| FunnelProofs.UndoAfterRollbackIff | runtime/tools/edits.py:824-846 | after a complete rollback undo is refused exactly when some file had been given other bytes |
| LostUpdates.TrackerIsKnowledge | runtime/tools/edits.py:437-450 | in every run a digest in an agent's tracker is of what that agent last read or wrote there |
| LostUpdates.NoLostUpdate | runtime/tools/edits.py:437-537 | over every interleaving, a successful edit replaces exactly the content its agent last read or wrote, and a creation replaces nothing |
| LostUpdates.SeveralIgnoreTheTracker | runtime/tools/edits.py:799-806 | edits of several files at once do not look at the tracker |
| LostUpdates.SeveralLoseNothingIff | runtime/tools/edits.py:790-821 | such an edit overwrites nothing its agent had not read or written if and only if the agent knows what stands in every file the edit gives other bytes |
| LostUpdates.FreshSeveralLoseNothing | runtime/tools/edits.py:437-450 | the staleness test of a single edit, made for each file, would be enough for that |
| LostUpdates.SeveralLoseUpdate | runtime/tools/edits.py:790-821 | a run in which an edit of this kind overwrites another agent's work unseen, where the single edit is refused |
| AgentLoops.AgentLoop.Run | agents/agent_loop.py:530-630 | a run ends within turns + slices + extensions + cutoff continuations, with at most one model call more than rounds; normal ends leave the history paired, and the exit status is ok exactly unless the budget ran out; after an exception the history is paired if and only if the cut at the marker is clean, and without a compaction it is the old one; the budgets are put back; the rounds follow each other as judge, budgets, grants and cutoffs say, and a tool round that used up the turns or the tool calls is followed by another only on a grant |
| AgentLoops.AgentLoop.Attempt | agents/agent_loop.py:547-617 | the body of the try: an exception leaves a paired history followed by at most one open round |
| AgentLoops.AgentLoop.Loop | agents/agent_loop.py:549-605 | the loop: every round takes one off the fuel, a grant leaves it level; the trace of its rounds, each going on where the one before stopped |
| AgentLoops.AgentLoop.OneRound | agents/agent_loop.py:549-603 | one round: reminder, model call, and the path its reply takes; what it says, spends and where it leads |
| AgentLoops.AgentLoop.ToolPath | agents/agent_loop.py:553-573 | a round with tool calls |
| AgentLoops.AgentLoop.CallTools | agents/agent_loop.py:553-565 | the tool round, and the text with which tools may end the run |
| AgentLoops.AgentLoop.SpendTurn | agents/agent_loop.py:567-572 | a spent turn: it goes on without a grant only while turns and tool calls are left, and a grant or the end comes only when one of the two is used up; what the judge adds, what a grant adds, and the status at the end |
| AgentLoops.AgentLoop.Renew | agents/agent_loop.py:569-572 | the second half of that: a used-up budget needs a grant |
| AgentLoops.AgentLoop.TracesKeepToolBudget | agents/agent_loop.py:567-572 | over every trace of rounds a tool round counts its calls, and one that used up a budget is followed by another only on a grant |
| AgentLoops.AgentLoop.Recover | agents/agent_loop.py:618-627 | what an exception leaves of the history, and when that is paired |
| AgentLoops.AgentLoop.TextPath | agents/agent_loop.py:574-603 | a round without tool calls: answered, continued after a cutoff, or sent back to work, and what it adds to the history |
| AgentLoops.AgentLoop.Nudge | agents/agent_loop.py:594-602 | being sent back to work leaves the fuel level, a grant included |
| AgentLoops.AgentLoop.SendModel | agents/agent_loop.py:552-552 | the model is only ever sent a paired history |
| AgentLoops.AgentLoop.MaybeInjectCloser | agents/agent_loop.py:674-679 | the closing reminder, once for each ceiling |
| AgentLoops.AgentLoop.MaybeCompact | agents/agent_loop.py:910-953 | compaction never raises on its own and leaves the history paired |
| AgentLoops.AgentLoop.Complete | agents/agent_loop.py:809-848 | one overflow retry for each loop object, on half the context budget |
| AgentLoops.AgentLoop.Dispatch | agents/agent_loop.py:955-992 | with distinct non-empty ids the check of the pairing never raises |
| AgentLoops.AgentLoop.GrantSlice | agents/agent_loop.py:638-641 | a grant adds turns, and two tool calls for each |
| AgentLoops.AgentLoop.JudgeProgress | agents/agent_loop.py:733-790 | when the judge is asked, what its answer adds to the history, and the extension: at most four turns at a time, eight in one run, none for a tester |
| AgentLoops.AgentLoop.OfferContinue | agents/subagent.py:60-65 | writers are granted two slices, others at most `max_continues` |
| AgentLoops.AgentLoop.TryContinue | agents/agent_loop.py:643-659 | one slice more, or the end of the run |
| AgentLoops.RoundPairedIff | agents/agent_loop.py:955-992 | a tool round keeps the history paired if and only if its ids are there and differ |
| AgentLoops.KeptPruned | agents/agent_loop.py:989-989 | pruning keeps the older history except for omitted screenshots |
| AgentLoops.FaultRestores | agents/agent_loop.py:618-627 | while nothing was compacted, the exceptional exit gives back a paired history of the old length |
| AgentLoops.ToolFaultPairedIff | agents/agent_loop.py:533-627 | an exception or a cancellation in a tool round leaves a paired history if and only if the marker lies in the history before the round and splits no group of it |
| AgentLoops.FaultPairedIff | agents/agent_loop.py:618-627 | the same for an exception at any await: cutting at the marker is right exactly when it falls between groups, or removes nothing and no round is open |
| AgentLoops.AbortPairedIff | agents/agent_loop.py:618-623 | the two messages a cancellation adds close no open round |
| AgentLoops.StaleMarkerRun | agents/agent_loop.py:530-627 | from any paired history of two messages or more: a compaction without room and a tool that raises end the run with an open call in the history |
| Sessions.Session.SubmitUserMessage | runtime/commands/lifecycle.py:78-104 | a user message is refused without a session |
| Sessions.Session.StartTurn | runtime/session.py:316-345 | a user message begins a turn or waits |
| Sessions.Session.BeginTurn | runtime/session.py:347-375 | a new turn task |
| Sessions.Session.MaybePump | runtime/session.py:377-389 | user messages before reports, all reports in one batch |
| Sessions.Session.OnAgentResult | runtime/session.py:1232-1239 | a report joins the inbox, or is dropped without a session |
| Sessions.Session.FinishTurn | runtime/session.py:423-436 | the end of a turn pumps the next |
| Sessions.Session.CloseSession | runtime/session.py:287-311 | closing empties both queues |
| Sessions.Session.RunState | runtime/commands/run_state.py:6-18 | the idle flag and the queue length reported |
| Sessions.EveryRunIsSafe | runtime/session.py:316-436 | one live turn at most; every user message begins exactly once, in order unless one has overtaken others; each report is in exactly one batch; an open session without a turn has both queues empty exactly unless an early cancellation stranded them |
| Sessions.WorkConservedIff | runtime/session.py:377-436 | a queue always has a turn to pump it, all along a run, if and only if no turn was cancelled before its first step while others waited |
| Sessions.InOrderIff | runtime/session.py:316-436 | messages that differ begin in the order they came if and only if none has overtaken others left waiting by an early cancellation |
| Sessions.IdleIsABarrier | runtime/commands/run_state.py:6-18 | idle means nothing runs and everything taken on has begun; the queue lengths in the formula decide it only where an early cancellation stranded the queues |
| Sessions.OpenIff | runtime/session.py:287-311 | over every run the session is open exactly when it was opened since it was last closed |
| Sessions.WhichTurnBegins | runtime/session.py:316-389 | no step begins more than one turn: the first message that waits, or one that finds no turn, or, when no message waits, all reports together |
| Sessions.EarlyCancelReorders | runtime/session.py:391-436 | a run of six steps in which a turn cancelled before its first step strands a message and the next one overtakes it |

## Left out

- Directories: parents made for a new file, `mkdir_path`, the renaming of directories, and undo inside directories; they only add exceptions.
- WriteFunnel.Funnel.RenameFile: a directory is refused, where the program moves it and records two rows without contents.
- Operations.UndoTwiceReapplies: assumes that nothing on disk lies below a file and that no path of the operation lies below another, as on any real file system.
- FunnelProofs.AllOrNothingIff: the paths are distinct, as the grouping of the edits by path makes them; a journal that raises instead of recording is not modelled.
- UndoProofs.UndoRestoresIff: writes during the undo succeed; an interrupted undo is modelled by its outcome, not repaired.
- PatchText.PatchGivesNewText: one direction only for texts with other line breaks than newline; `ForeignBreakPrintsTwice` shows what happens to such a line.
- UnifiedDiff.ParseUnifiedDiff: the numbers of a hunk header are read as ASCII digits, while the pattern also takes other decimal digits.
- TextEdits.BackToFrontIsSimultaneous: for text without carriage returns, which is what decoding gives; one direction only for edits that start past the end of a text without a final break, where the wrong place can give the right text by chance; a position that splits a surrogate pair makes the call fail.
- FileId.RoundTripIff: invalid UTF-8 is one error value; indentation detection and sibling lookup are inputs.
- LostUpdates.NoLostUpdate: every agent has a tracker; without one nothing is checked.
- Compactor.Compact: floating-point ratios are reals, the wording of summaries, the transcript clipping and the judge's questions are inputs, and the summary text in the report is not modelled.
- AgentLoops.AgentLoop.MaybeCompact: the identity test on the first message is modelled by its position; the wording of injected messages is a placeholder.
- AgentLoops.AgentLoop.Run: the text returned by a run that used up its budget or was answered, the hooks and usage numbers are not modelled; whether a closing nudge is due is an input.
- OrchestratorProofs.LedgerHoldsOwedFiles: file lists are sets and the ledger's reason text is left out.
- OrchestratorProofs.EveryRunIsSafe: legacy worktrees, the merge gate's wording, transcripts and memory notes are left out.
- Subscribers.Subscriber.Put: the size of an event is given with it; the notices' texts count by their lengths.
- Subscribers.Subscriber.GetNowait: the waiting of `get` is left out; its taking is the same step.
- Sessions.Session.SubmitUserMessage: the answer to a pending prompt and the refusal without an API key are left out.
- Sessions.EveryRunIsSafe: model and effort choices of a turn, persistence and events are left out.
- `str_replace`, `replace_lines` and `insert_at_line`: slices of lines that would only add easy members.
- Closeness hints, diagnostics, metrics, traces, protocol classes, configuration and clients: advice text and input/output.
