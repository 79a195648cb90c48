# Verification of the Telegram kit's durable protocols

A Dafny 4.11 model of the parts of this repository that must survive crashes, failed calls, interleaved hooks and
hostile timing, with proofs of what they promise. Each module follows one source file or one component; classes have
the fields of the objects they model, and whole runs are methods or lemmas over sequences of events.

- **Native-memory applier** (`ManagedLedger`, `ApplyJournal`, `LeafMoves`, `IndexText`, `MemoryApplier`,
  `MemoryApplyCommand`): the journaled transaction over a topic file, `MEMORY.md` and the ownership ledger, its rollback
  and recovery, and the command that drives them. A schedule decides at every system call whether it succeeds, fails
  without effect, fails after its effect or never returns, and what others write to memory in between; a trace accounts
  for every leaf, and the index is read line by line.
- **Turn disclosure** (`FinalDelivery`, `ProgressBubble`, `BubbleHistory`, `UnifiedDelivery`, `TaskRoutes`,
  `TaskRouteLaws`): hooks cut at their awaits and interleaved freely; the final text, the bubble of a turn, the
  three-tier send, and the maps of turns, background routes and aliases. `BubbleHistory` and `TaskRouteLaws` tell from
  events and earlier state alone what must happen, not only what must not.
- **Progress texts** (`TurnProgress`, `BackgroundProgress`): statuses, lines and bounded renderings.
- **Memory review** (`ReviewWorker`, `ReceiptStore`): the crash-prone worker with bounded attempts, and the lazily
  pruned receipt directory against one that prunes on every call.
- **Line framers** (`LineFraming`, `UsageWatcher`, `BackgroundTasks`): chunked readers with a skip mode against a plain
  split, and the task tracker one of them feeds.
- **Root helper** (`ProcessTree`, `SwitchHelper`, `RequestClaims`, `HelperRuns`): reset, resume and model switch under
  any failures, at-most-once request claims, and the process search of the health check.
- **Root installer** (`RootAssets`), **duplicate-free JSON** (`JsonGrammar`, `JsonScan`, `JsonRecognizer`),
  **observer ledger** (`ObserverLedger`), **broker limiter** (`RateLimiter`).
- `Wrappers` and `OrderedMap` hold what they share: optional values, results that throw or die, injective digests, and
  maps that remember insertion order.

## How the model reads the code

- SHA-256 is an injective function; stored JSON and base64 round-trip. A file is optional content, and for memory
  leaves an identity stamp. A compare-and-swap is one atomic step.
- Claims with process ids are inputs (busy or not) or a lock that a crash releases. Clocks, system calls, Telegram,
  systemd and the model are inputs or schedules that the theorems quantify over.
- Text that is compared or measured is a sequence of code units; chats, prompts and tools are told apart by number.
- The ledger is sorted by code units. The code sorts it with `localeCompare` and validates it by code units
  (packages/shared/src/memory-applier.ts:242, memory-applier-state.ts:293-295). For memory names the two agree in the
  root collation; in a locale with digraphs they may not ("chat.md" behind "d.md" in Czech), and the apply is then
  rejected before anything is written.

Where the code differs from its own words:

- The comment on `generation` (packages/telegram-renderer-mcp/src/progress-state.ts:77-78) says that it advances exactly
  when the visible text changes. It advances with every accepted event; the text changes with it exactly as
  `TurnProgress.StatusShows`, `TurnProgress.ToolShows` and `TurnProgress.CloseShows` say: not for a success, not for a
  further failure on a line, and not for what happens to a line that is hidden.
- A topic with two or more hyphens is a valid topic but no memory name (`ManagedLedger.StemIsShortTopic`), so that
  applying it is always rejected (`MemoryApplier.Host.Apply`).
- Repeating a committed create is recognised if and only if no line of the index ended with the topic's line before
  (`IndexText.RetryIsRecognised`); otherwise it is rejected (`IndexText.RetryUnrecognised`).
- The broker reads its clock before it waits for its lock, so times may go back by up to a second. Then a 60-second
  window may hold more than the burst (`RateLimiter.ClockGoesBack`), and a window shorter by as much as the clock went
  back never does (`RateLimiter.Run`).
- The rendering of background agents may exceed Telegram's limit by its closing marker: when it does is said by
  `BackgroundProgress.Background.Render`, and sixteen agents that make it do so are in `BackgroundProgress.ExceedsLimit`.
- A failed write of the installer leaves its temporary file, which stops the restore of that very destination. With one
  failing call that does no harm (`RootAssets.OneFailureUndone`); of two failing calls nothing is promised.
- The review worker's outer catch records a failure once more by a copy that may be stale, so that a retry can be answered
  with the failure already on record; the bound of one retry holds all the same (`ReviewWorker.Run`).
- A final text may have been sent although its delivery reads as rejected (`UnifiedDelivery.Deliverer.DeliverFinal`);
  the turn machine therefore takes only a size rejection as proof that nothing exists.

## Model

| member | source | states |
|---|---|---|
| ManagedLedger.StemIsShortTopic | packages/shared/src/memory-applier-state.ts:26 | the names the applier may write, a word or two joined by one hyphen, are exactly the topics with at most one hyphen |
| ManagedLedger.LeafHasTopic | packages/shared/src/memory-applier-state.ts:26 | every leaf the applier may write, other than the index, belongs to a valid topic |
| ManagedLedger.LedgerAfterSpec | packages/shared/src/memory-applier.ts:224-244 | the next ledger is valid and strictly sorted, gives the topic to the proposal with the new hash, and leaves every other path its owner |
| ManagedLedger.LessTotal | packages/shared/src/memory-applier-state.ts:259-296 | the code-unit order of ledger paths is total |
| ManagedLedger.LessTransitive | packages/shared/src/memory-applier-state.ts:259-296 | that order is transitive |
| ManagedLedger.LessIrreflexive | packages/shared/src/memory-applier-state.ts:259-296 | that order is irreflexive, so that strictly sorted paths are distinct |
| MemoryApplier.Host.CaptureLeaf | packages/shared/src/memory-applier-state.ts:134-198 | a read gives the leaf as it is and refuses a name that is no memory name and a leaf over 64 KiB |
| MemoryApplier.Host.WriteLeaf | packages/shared/src/memory-applier-state.ts:212-245 | compare-and-swap under any edits: the files are as others left them, or with this leaf alone replaced where it was the one expected; a success leaves its bytes, and if no call fails it succeeds exactly if the leaf is still the one expected |
| MemoryApplier.Host.RemoveLeaf | packages/shared/src/memory-applier-state.ts:247-257 | compare-and-remove under any edits: the files are as others left them, or without this leaf alone where it was the one expected; if no call fails it succeeds exactly then |
| MemoryApplier.Host.ReadLedger | packages/shared/src/memory-applier-state.ts:362-366 | the ledger as it is stored |
| MemoryApplier.Host.WriteLedger | packages/shared/src/memory-applier-state.ts:372-374 | replacement of the ledger, which may fail after its effect |
| MemoryApplier.Host.RestoreLedger | packages/shared/src/memory-applier-state.ts:380-402 | the ledger goes back only over the after-ledger of the journal; a third content is a conflict |
| MemoryApplier.Host.ReadJournal | packages/shared/src/memory-applier-state.ts:492-497 | the journal as it is stored |
| MemoryApplier.Host.WriteJournal | packages/shared/src/memory-applier-state.ts:499-502 | durable replacement of one journal |
| MemoryApplier.Host.RemoveJournal | packages/shared/src/memory-applier-state.ts:504-512 | durable removal of one journal |
| MemoryApplier.Host.RollbackFile | packages/shared/src/memory-applier.ts:266-290 | one file, under any edits: the files end as others left them, or with this leaf alone put back from the after-bytes; without a conflict it holds its before-content then, a foreign content is a conflict and stays, and if no call fails the only other conflict is a leaf replaced between the read and the write |
| MemoryApplier.Host.PutBack | packages/shared/src/memory-applier.ts:280-289 | a leaf that holds the after-image gets its before-content back and no other leaf changes, or the comparison fails and none does |
| MemoryApplier.Host.RollbackFiles | packages/shared/src/memory-applier.ts:265-291 | the files last first, each handled from where the one before it ended; the count is the number of conflicts met |
| MemoryApplier.Host.RollbackPlaces | packages/shared/src/memory-applier.ts:250-300 | files and ledger under any edits: the count is the number of conflicts met at the files, one more for a foreign ledger, which stays |
| MemoryApplier.Host.RollbackJournal | packages/shared/src/memory-applier.ts:250-300 | under any edits the leaves change only as others edit them and by writes that put back the before-content over the after-bytes; zero conflicts mean that each place held its before-content when its handling ended, and the journal goes exactly then; left alone, rollback restores every place that is not foreign and counts the others |
| LeafMoves.RollbackSparesOthers | packages/shared/src/memory-applier.ts:266-290 | under any edits elsewhere, a rollback leaves alone a content that is not the applier’s own |
| LeafMoves.ThirdContentStays | packages/shared/src/memory-applier.ts:266-290 | writes that only ever replace one content leave any other alone, whatever happens to other leaves |
| LeafMoves.OtherLeavesStay | packages/shared/src/memory-applier.ts:250-300 | a leaf that is no place of the journal changes only by the edits of others |
| LeafMoves.LedSince | packages/shared/src/memory-applier.ts:250-300 | between two points of a run the files follow from the edits the schedule gave and the writes made, in their order |
| ApplyJournal.NoConflict | packages/shared/src/memory-applier.ts:250-300 | zero conflicts in all are none at any place: each held its before-content when its handling ended |
| ApplyJournal.SomeConflict | packages/shared/src/memory-applier.ts:275-281 | a foreign content at any place is counted, so that the journal stays |
| ApplyJournal.RollbackResumes | packages/shared/src/memory-applier.ts:250-300 | a rollback stopped anywhere and run again restores the same contents and finds the same conflicts as one run through |
| ApplyJournal.TornRestores | packages/shared/src/memory-applier.ts:250-300 | undoing the one unfinished transaction of a torn state gives back the contents and the ledger it started from |
| ApplyJournal.TornIsNotForeign | packages/shared/src/memory-applier.ts:246-248 | nothing a transaction writes is foreign to its own journal |
| ApplyJournal.CoherentIsNotForeign | packages/shared/src/memory-applier.ts:507-578 | recovery of a coherent state meets no conflict in its unfinished journal |
| ApplyJournal.RecoverStep | packages/shared/src/memory-applier.ts:550-566 | one journal of the recovery loop keeps the state one rollback away from the abstract state |
| MemoryApplier.Host.WriteFile | packages/shared/src/memory-applier.ts:443-447 | one compare-and-swap of the forward direction, then its phase record, keep the state torn between before and after |
| MemoryApplier.Host.WriteLeaves | packages/shared/src/memory-applier.ts:443-455 | topic, then index: all files hold their after-images |
| MemoryApplier.Host.CommitTransaction | packages/shared/src/memory-applier.ts:457-468 | ledger, phase record, commit record: the proposal counts as committed once, and exactly with its commit record |
| MemoryApplier.Host.WritePhases | packages/shared/src/memory-applier.ts:442-475 | the five phases from the prepared journal on |
| MemoryApplier.Host.ClearCommitted | packages/shared/src/memory-applier.ts:356-360 | a committed journal of the same proposal is cleared first, an unfinished one stops the apply |
| MemoryApplier.Host.Inspect | packages/shared/src/memory-applier.ts:362-386 | what the apply sees, and already-applied exactly for an owned topic with the owned content and, for a create, one index line |
| MemoryApplier.Host.PlanFiles | packages/shared/src/memory-applier.ts:390-412 | create needs an absent topic and an index, patch an owned unchanged topic; the files and their after-images follow |
| MemoryApplier.Host.Draft | packages/shared/src/memory-applier.ts:390-438 | the journal and the next ledger of a permitted proposal |
| MemoryApplier.Host.ObservationMatches | packages/shared/src/memory-applier.ts:194-208 | the fresh observation equals the one the proposal was made for |
| MemoryApplier.Host.Prepare | packages/shared/src/memory-applier.ts:362-438 | a plan that carries exactly the proposal, or the outcome that stops it |
| ApplyJournal.CarriedOut | packages/shared/src/memory-applier.ts:224-244 | a plan carried out gives exactly the sequential meaning of its proposal |
| MemoryApplier.Host.WriteOrUndo | packages/shared/src/memory-applier.ts:442-486 | the forward phases, and their rollback in the same process when a call fails |
| MemoryApplier.Concluded | packages/shared/src/memory-applier.ts:439-486 | a transaction ends carried out, undone, or torn with its own journal alone to tell |
| MemoryApplier.Host.Transact | packages/shared/src/memory-applier.ts:439-486 | either the proposal commits and the state is its sequential effect, or the state stays one rollback away from the old one |
| MemoryApplier.Host.ApplyClaimed | packages/shared/src/memory-applier.ts:347-496 | the body of an apply under both claims |
| MemoryApplier.Host.Apply | packages/shared/src/memory-applier.ts:302-496 | applied if and only if committed in this call; with nobody else writing, the topic then has its text and its owner, and a create has gained its line in the index and nothing else has changed, and without a commit the state is coherent with the one before if nothing was pending there; undisturbed and with room, it is applied if and only if the request is in order, the observation fresh and the topic open to it, and else nothing changes; under any edits the leaves change only as others edit them and by writes of its own journal, each over the leaf it was compared with; a topic with two or more hyphens is always rejected |
| IndexText.AppendGains | packages/shared/src/memory-applier.ts:397-401 | the appended line is a line of its own at the end: the lines of the new text are those of the old one and this, and at most the line break that was missing comes in besides |
| IndexText.ExecuteTakes | packages/shared/src/memory-applier.ts:388-438 | the sequential meaning of a proposal: the topic has the new text and owner, a create has gained its line in the index, a patch found the topic owned and unchanged, and all else is as it was |
| IndexText.MayBeApplied | packages/shared/src/memory-applier.ts:388-412 | a proposal applies exactly to a fresh observation with a missing topic beside an index, or with a topic that another proposal owns and nobody has changed |
| IndexText.OccursAsLine | packages/shared/src/memory-applier.ts:366-372 | in a text that ends its last line, a line and its break occur exactly where one of the lines ends with it |
| IndexText.RetryIsRecognised | packages/shared/src/memory-applier.ts:366-386 | a committed proposal is recognised as applied when repeated, for a create if and only if no line of the index ended with the topic’s line before |
| IndexText.RetryUnrecognised | packages/shared/src/memory-applier.ts:366-386 | an index that already holds the line of a new topic: the create goes through, and its repetition is neither recognised nor accepted |
| MemoryApplier.Host.RecoverOne | packages/shared/src/memory-applier.ts:537-566 | one journal: cleared if committed, undone if not, a conflict if it is foreign to the caller |
| MemoryApplier.Host.UndoClaimed | packages/shared/src/memory-applier.ts:558-566 | the rollback of one unfinished journal under its claim keeps the state coherent and, undisturbed, undoes it |
| MemoryApplier.Host.RecoverAll | packages/shared/src/memory-applier.ts:536-567 | no conflict leaves no journal; the transactions undone and the journals left are counted exactly; a coherent undisturbed state is recovered completely |
| MemoryApplier.Host.Recover | packages/shared/src/memory-applier.ts:507-578 | a recovery without conflict leaves no journal and, from a coherent state, exactly the contents and ledger of the committed proposals, even if calls fail; under any edits the leaves change only as others edit them and by writes that put back a before-content |
| MemoryApplyCommand.ApplyRecord | packages/session-control-mcp/src/memory-apply-command.ts:121-133 | one record of the loop keeps the state in step with the replay of the commits; undisturbed it is applied exactly if it is due |
| MemoryApplyCommand.TryRecord | packages/session-control-mcp/src/memory-apply-command.ts:100-133 | one turn of the loop: records of another session and records whose proposal is already owned are passed over, and undisturbed a record is applied exactly if it is due |
| MemoryApplyCommand.HandleCommand | packages/session-control-mcp/src/memory-apply-command.ts:87-147 | recover before apply: at most one proposal commits per activation, and the state stays in step unless an apply started while an earlier one of the activation was still pending; the first apply never does; undisturbed, the first record that is due is applied, and if none was applied none is due in what is left |
| MemoryApplyCommand.ApplyRecords | packages/session-control-mcp/src/memory-apply-command.ts:98-147 | the loop over the records: one start of an apply for each record at most, in step as long as none found a transaction pending; undisturbed the first record that is due is applied and no other |
| MemoryApplyCommand.OverlapBreaksStep | packages/session-control-mcp/src/memory-apply-command.ts:98-147 | for any two topics, an apply that starts over the pending transaction of the other commits and leaves the state out of step |
| MemoryApplyCommand.Run | packages/session-control-mcp/src/memory-apply-command.ts:87-147 | for any activations dying anywhere the state stays one rollback away from the sequential replay of exactly the committed proposals |
| MemoryApplyCommand.RunThenRecover | packages/session-control-mcp/src/memory-apply-command.ts:87-97 | after any run without an overlapping apply, which includes every run in which no call fails, a completed recovery leaves files and ledger equal to that replay; after any run at all it leaves no journal |
| FinalDelivery.AtMostOneFinalText | packages/telegram-renderer-mcp/src/progress-disclosure.ts:741-842 | for every interleaving at awaits at most one delivery is not a proven size rejection, at most two content calls and one fallback are made, and at most one hook is told to retry |
| FinalDelivery.RetryMeansNothingSent | packages/telegram-renderer-mcp/src/progress-disclosure.ts:804-810 | retry is answered only when no message of the turn can exist |
| FinalDelivery.KilledSendsNothing | packages/telegram-renderer-mcp/src/progress-disclosure.ts:758-762 | a turn bound to a killed task never starts a delivery |
| FinalDelivery.SizeRejected | packages/telegram-renderer-mcp/src/progress-disclosure.ts:808-833 | in every reachable state a delivery rejected for its size leads to the one retry, which reopens the delivery while nothing can have been sent, and once that is spent to exactly one fallback |
| FinalDelivery.HugeRejected | packages/telegram-renderer-mcp/src/progress-disclosure.ts:786-833 | the same for a text too long to be tried |
| FinalDelivery.RetryDelivers | packages/telegram-renderer-mcp/src/progress-disclosure.ts:778-806 | after the retry the next finished answer is delivered |
| FinalDelivery.StopWaits | packages/telegram-renderer-mcp/src/progress-disclosure.ts:741-803 | in the foreground a Stop hook waits for its bubble whatever comes in between; then an ordinary text of a live turn that was not served is sent, a blank one closes the turn, and a turn that is gone, killed or served sends nothing |
| FinalDelivery.FirstAnswerDelivered | packages/telegram-renderer-mcp/src/progress-disclosure.ts:741-803 | the first answer of every turn is sent, whatever agents, further hooks and the watcher do before the bubble is drained, and once answered other than by its size it remains the only call of the turn |
| FinalDelivery.AnsweredIsLast | packages/telegram-renderer-mcp/src/progress-disclosure.ts:804-837 | in every reachable state an answer other than a size rejection of the text ends the foreground phase, into the background phase exactly if an agent runs, and no call starts afterwards |
| FinalDelivery.AgentsAsTold | packages/telegram-renderer-mcp/src/progress-disclosure.ts:490-491 | agents run as the last event about them says |
| FinalDelivery.OneFailureNotice | packages/telegram-renderer-mcp/src/progress-disclosure.ts:464-488 | however hooks, watcher and answers interleave, at most one activation of a turn sends a failure notice |
| FinalDelivery.FailureWaits | packages/telegram-renderer-mcp/src/progress-disclosure.ts:741-766 | a StopFailure hook waits for the structured failure and for its bubble, and then retires the turn for its notice exactly if the turn is live and its failure not taken |
| FinalDelivery.GraceEnds | packages/telegram-renderer-mcp/src/progress-disclosure.ts:747-757 | the wait for the structured failure ends without a notice exactly if the failure was taken or the turn is gone |
| FinalDelivery.StepKeepsInv | packages/telegram-renderer-mcp/src/progress-disclosure.ts:741-842 | every segment between two awaits keeps the delivery invariant |
| FinalDelivery.RunKeepsInv | packages/telegram-renderer-mcp/src/progress-disclosure.ts:741-842 | every reachable state satisfies it |
| FinalDelivery.EnterKeepsInv | packages/telegram-renderer-mcp/src/progress-disclosure.ts:741-756 | the start of finishTurn keeps the delivery invariant |
| FinalDelivery.AfterDrainKeepsInv | packages/telegram-renderer-mcp/src/progress-disclosure.ts:757-803 | the segment after the drained bubble keeps it |
| FinalDelivery.AnsweredKeepsInv | packages/telegram-renderer-mcp/src/progress-disclosure.ts:804-837 | the segment after a delivery keeps it |
| FinalDelivery.ContinueKeepsInv | packages/telegram-renderer-mcp/src/progress-disclosure.ts:464-488 | every other resumption keeps it |
| ProgressBubble.BubbleProtocol | packages/telegram-renderer-mcp/src/progress-disclosure.ts:347-411 | each phase issues at most two bubble sends, the second only after an edit answered gone, none after an uncertain send, even across a phase switch or a drop |
| ProgressBubble.FlushReachesTransport | packages/telegram-renderer-mcp/src/progress-disclosure.ts:347-369 | a flush with something new and permission to show it always reaches the transport, as an edit of the known bubble or as a send |
| BubbleHistory.HistoryAgrees | packages/telegram-renderer-mcp/src/progress-disclosure.ts:347-505 | what the turn object holds is told by its events and calls: its phase, the flushes due, the call it waits for, and whether a bubble was found gone in the phase |
| BubbleHistory.BubbleIsEdited | packages/telegram-renderer-mcp/src/progress-disclosure.ts:361-391 | from a send that arrived on, and until a drop, a phase switch, a barred chat or an edit that fails for good, a flush that is due edits that very message exactly if its text is not the last one shown |
| BubbleHistory.FirstFlushSends | packages/telegram-renderer-mcp/src/progress-disclosure.ts:347-401 | in a phase that has no bubble yet the first flush that is due sends its text, unless a late edit of the phase before has shown it |
| BubbleHistory.AnswersAndIdleEvents | packages/telegram-renderer-mcp/src/progress-disclosure.ts:370-409 | the first edit of a phase that finds its bubble gone is followed at once by one send of the same text; no other answer and no event but a due flush issues a call |
| BubbleHistory.FlushIssues | packages/telegram-renderer-mcp/src/progress-disclosure.ts:347-399 | a flush issues one call at most, with the text it was given, and none without steps or permission |
| BubbleHistory.PhaseIsOver | packages/telegram-renderer-mcp/src/progress-disclosure.ts:347-411 | behind an unknown or refused send, a refused or throttled edit, a second bubble gone, a drop, or a barred chat no call is issued until the background phase opens |
| BubbleHistory.DropDuringEdit | packages/telegram-renderer-mcp/src/progress-disclosure.ts:301-310 | a drop during an edit ends the phase too, unless the edit finds the bubble gone |
| ProgressBubble.RunKeepsInv | packages/telegram-renderer-mcp/src/progress-disclosure.ts:347-411 | every reachable state of the flush chain satisfies the bubble invariant |
| ProgressBubble.StepKeepsInv | packages/telegram-renderer-mcp/src/progress-disclosure.ts:347-411 | every segment of the flush chain keeps it |
| ProgressBubble.BubbleTurn.StartFlush | packages/telegram-renderer-mcp/src/progress-disclosure.ts:347-369 | the first segment of a flush is the Begin step of the specification |
| ProgressBubble.BubbleTurn.ResumeAfterEdit | packages/telegram-renderer-mcp/src/progress-disclosure.ts:370-394 | the segment after an edit is its AnswerEdit step |
| ProgressBubble.BubbleTurn.ResumeAfterSend | packages/telegram-renderer-mcp/src/progress-disclosure.ts:399-409 | the segment after a send is its AnswerSend step |
| ProgressBubble.BubbleTurn.BeginBackground | packages/telegram-renderer-mcp/src/progress-disclosure.ts:490-505 | the phase switch resets the bubble and queues a flush, once |
| ProgressBubble.Drive | packages/telegram-renderer-mcp/src/progress-disclosure.ts:347-505 | the turn object under any events: at most two sends in a phase, the second only after a gone edit, none after an uncertain one |
| UnifiedDelivery.Deliverer.Deliver | packages/telegram-renderer-mcp/src/unified-delivery.ts:102-166 | three renderings in order, nothing after a success or an unknown outcome; exactly which of them are tried, by permission, capability, the answers and the lengths; a size rejection exactly if a length check stopped the sequence, a refusal exactly if all was refused; rich delivery pauses after a capability refusal |
| UnifiedDelivery.Deliverer.DeliverFinal | packages/telegram-renderer-mcp/src/server.ts:74-145 | too large exactly if a length check stopped the sequence with nothing created; rejected does not promise that: attachments may break after the text was sent |
| UnifiedDelivery.AtMostOneMessage | packages/telegram-renderer-mcp/src/progress-disclosure.ts:778-837 | over every interleaving of the hooks of a turn, of all renderings sent by all its final deliveries at most one may have created a message, and none while a retry is offered |
| TaskRoutes.Disclosure.DeleteRoute | packages/telegram-renderer-mcp/src/progress-disclosure.ts:182-190 | a route goes with exactly its aliases |
| TaskRoutes.Disclosure.DropExpired | packages/telegram-renderer-mcp/src/progress-disclosure.ts:192-196 | exactly the expired routes go |
| TaskRoutes.Disclosure.PruneRoutes | packages/telegram-renderer-mcp/src/progress-disclosure.ts:192-202 | what stays are the newest 128 unexpired routes, in order, and exactly the aliases of these |
| TaskRoutes.Disclosure.RememberRoute | packages/telegram-renderer-mcp/src/progress-disclosure.ts:216-236 | a launch is admitted once, below depth and bounds; the turn waits for it, the route survives, and of the other routes the newest unexpired ones stay |
| TaskRoutes.Disclosure.RememberAlias | packages/telegram-renderer-mcp/src/progress-disclosure.ts:238-247 | an alias names one route only and never creates one |
| TaskRoutes.Disclosure.TerminalizeRoute | packages/telegram-renderer-mcp/src/progress-disclosure.ts:249-255 | the route goes and its owner’s task is no longer pending |
| TaskRoutes.Disclosure.TerminalizeAlias | packages/telegram-renderer-mcp/src/progress-disclosure.ts:257-268 | the same by alias, and the agent of that name ends |
| TaskRoutes.Disclosure.EvictOldest | packages/telegram-renderer-mcp/src/progress-disclosure.ts:312-320 | the oldest turn of one kind goes |
| TaskRoutes.Disclosure.EvictBeyond | packages/telegram-renderer-mcp/src/progress-disclosure.ts:322-330 | of one kind the newest up to the limit stay, the other kind is untouched |
| TaskRoutes.Disclosure.Evict | packages/telegram-renderer-mcp/src/progress-disclosure.ts:322-330 | at most 16 turns with active background work and 32 others stay |
| TaskRoutes.Disclosure.RouteFor | packages/telegram-renderer-mcp/src/progress-disclosure.ts:530-544 | the route a notification names directly or by alias, none if the names disagree |
| TaskRoutes.Disclosure.ConsumeRoute | packages/telegram-renderer-mcp/src/progress-disclosure.ts:553-565 | the route is used up by the completion that is bound |
| TaskRoutes.Disclosure.RetireOlder | packages/telegram-renderer-mcp/src/progress-disclosure.ts:567-577 | older turns of the chat go unless background work holds them |
| TaskRoutes.Disclosure.Place | packages/telegram-renderer-mcp/src/progress-disclosure.ts:579-636 | the fresh turn takes its key and survives; of the others the newest 16 with background work and the newest 32 without stay |
| TaskRoutes.Disclosure.BindDirect | packages/telegram-renderer-mcp/src/progress-disclosure.ts:523-528 | a channel prompt binds a fresh turn |
| TaskRoutes.Disclosure.BindCompletion | packages/telegram-renderer-mcp/src/progress-disclosure.ts:529-565 | a completion binds through the one route it names and finds unexpired; the route goes, its owner no longer waits for it, and the newest turns stay |
| TaskRoutes.Disclosure.Bind | packages/telegram-renderer-mcp/src/progress-disclosure.ts:512-641 | routes are pruned to the newest 128 unexpired ones, then a direct prompt or a completion binds its turn, and nothing else binds one |
| TaskRoutes.Disclosure.RecordTool | packages/telegram-renderer-mcp/src/progress-disclosure.ts:643-670 | an admitted launch is remembered as a pending route beside the newest unexpired ones; anything else changes nothing |
| TaskRoutes.Disclosure.RecordSubagentStart | packages/telegram-renderer-mcp/src/progress-disclosure.ts:672-683 | an agent starts within the bound |
| TaskRoutes.Disclosure.RecordSubagentStop | packages/telegram-renderer-mcp/src/progress-disclosure.ts:685-697 | an agent stops |
| TaskRoutes.Disclosure.RecordResult | packages/telegram-renderer-mcp/src/progress-disclosure.ts:699-739 | a launch adds its alias, a stopped task ends the route it names and its agent, and anything else ends its own route and the wait for it |
| TaskRoutes.Disclosure.BeginBackground | packages/telegram-renderer-mcp/src/progress-disclosure.ts:490-505 | a finished turn with running agents stays, in its background phase; a turn object no longer in the map changes nothing |
| TaskRoutes.Disclosure.DropTurn | packages/telegram-renderer-mcp/src/progress-disclosure.ts:757-838 | a turn object goes only if it is still the one under its key |
| TaskRoutes.Run | packages/telegram-renderer-mcp/src/progress-disclosure.ts:182-641 | each hook, cut at its awaits, with turns retired at any time, takes the maps one step; in every state they reach aliases and routes are exact inverses, 128 routes and 48 turns bound the maps, depths stay within two, no insertion is consumed twice, and live recording turns have their routes pending |
| TaskRoutes.Consumption | packages/telegram-renderer-mcp/src/progress-disclosure.ts:520-560 | a route is consumed by an authorised completion that names it and finds it unexpired, and in no other way |
| TaskRoutes.Insertion | packages/telegram-renderer-mcp/src/progress-disclosure.ts:216-250 | a route is new only right behind an admitted launch |
| TaskRouteLaws.CompletionBinds | packages/telegram-renderer-mcp/src/progress-disclosure.ts:529-636 | an authorised completion that takes a route by its tool or an alias, and finds it unexpired still, uses up exactly that route with its aliases, is bound as the newest turn in its chat, quote and depth, and its owner waits for the task no longer |
| TaskRouteLaws.CompletionIgnored | packages/telegram-renderer-mcp/src/progress-disclosure.ts:529-552 | a completion that takes no route, or one expired since, or is not authorised, binds nothing and uses up nothing |
| TaskRouteLaws.DirectBinds | packages/telegram-renderer-mcp/src/progress-disclosure.ts:523-636 | a direct prompt retires the older idle foreground turns of its chat and is bound as the newest turn |
| TaskRouteLaws.RetainedMeans | packages/telegram-renderer-mcp/src/progress-disclosure.ts:322-330 | a turn stays exactly if fewer than 16 turns with background work, or fewer than 32 others, are newer than it |
| TaskRouteLaws.LaunchRemembered | packages/telegram-renderer-mcp/src/progress-disclosure.ts:216-236 | an admitted launch has the newest route, open for six hours and one level deeper; the expired routes go, and the oldest if 128 are left |
| TaskRouteLaws.LaunchNamed | packages/telegram-renderer-mcp/src/progress-disclosure.ts:238-247 | a launch that reports its task id gives its route that name unless another has it |
| TaskRouteLaws.ResultEnds | packages/telegram-renderer-mcp/src/progress-disclosure.ts:249-268 | any other result ends its own route, a TaskStop the one its task id names, and the owner waits for it no longer |
| TaskRouteLaws.AgentsStartAndStop | packages/telegram-renderer-mcp/src/progress-disclosure.ts:658-694 | an agent starts once per turn, below depth and bound, and stops |
| TaskRouteLaws.RouteLost | packages/telegram-renderer-mcp/src/progress-disclosure.ts:192-268 | a route is lost exactly by expiry, by the completion that takes it, by 128 newer ones or by the end of its task, and keeps all but its names meanwhile |
| TaskRouteLaws.CompletionFindsItsChat | packages/telegram-renderer-mcp/src/progress-disclosure.ts:216-636 | over any hooks that do not lose the route, a completion that names the task id its launch reported is bound within six hours in the chat of the turn that launched it |
| ReviewWorker.ReviewHost.BeginAttempt | packages/shared/src/memory-review-receipt.ts:423-429 | an attempt is spent durably before it is used, and never a third |
| ReviewWorker.ReviewHost.RecordFailure | packages/shared/src/memory-review-receipt.ts:431-434 | failure telemetry lands only on a queued receipt |
| ReviewWorker.ReviewHost.MarkReviewed | packages/shared/src/memory-review-receipt.ts:373-404 | only a queued receipt turns reviewed |
| ReviewWorker.ReviewHost.StoreProposal | packages/shared/src/memory-review-proposal-store.ts:322-406 | a stored proposal is never replaced; an equal one is returned |
| ReviewWorker.ReviewHost.PersistFailure | packages/session-control-mcp/src/memory-review-worker.ts:69-82 | retry is answered only for a failure recorded as not terminal |
| ReviewWorker.ReviewHost.RecoverableFailure | packages/session-control-mcp/src/memory-review-worker.ts:83-90 | after both attempts or a recorded failure the next one is terminal; before that, if no call fails, it is worth a retry |
| ReviewWorker.ReviewHost.Finish | packages/session-control-mcp/src/memory-review-worker.ts:109-131 | done only with the receipt reviewed and its proposal in store |
| ReviewWorker.ReviewHost.Resume | packages/session-control-mcp/src/memory-review-worker.ts:141-151 | a stored proposal is taken up only for the same binding and watermark, without a model call |
| ReviewWorker.ReviewHost.Generate | packages/session-control-mcp/src/memory-review-worker.ts:153-194 | one model call, after its attempt was spent |
| ReviewWorker.ReviewHost.StoreAndFinish | packages/session-control-mcp/src/memory-review-worker.ts:174-194 | a failure that the last step could not record is recorded once more; a retry is answered only by a worker that found no failure on record |
| ReviewWorker.ReviewHost.Review | packages/session-control-mcp/src/memory-review-worker.ts:99-197 | the part under the claim: an untroubled run ends done with the stored or the new proposal |
| ReviewWorker.ReviewHost.RunWorker | packages/session-control-mcp/src/memory-review-worker.ts:54-198 | a worker calls the model at most once, behind its spent attempt, and leaves terminal states alone; its answer and what it leaves are exact if no call fails |
| ReviewWorker.Run | packages/session-control-mcp/src/memory-review-worker.ts:54-198 | at most two model calls and one retry answer per receipt, terminal receipts and stored proposals never change, a reviewed receipt has its proposal; a worker that nothing fails answers and leaves exactly what its claim, its snapshot, the stored proposal and the model say |
| ReviewWorker.UntroubledMeans | packages/session-control-mcp/src/memory-review-worker.ts:54-198 | a worker that nothing fails is done exactly with a proposal that was stored for its snapshot or that the model makes while an attempt is left, and asks for a retry exactly at the first failure with an attempt left over |
| ReceiptStore.Store.PruneExpired | packages/shared/src/memory-review-receipt.ts:231-260 | the readable receipts left are counted; with working unlinks exactly the expired ones go |
| ReceiptStore.Store.Create | packages/shared/src/memory-review-receipt.ts:306-336 | the answer and the live receipts are those of a store that prunes on every call, and the bound holds even if unlinks fail |
| ReceiptStore.Store.CreateNew | packages/shared/src/memory-review-receipt.ts:318-336 | below the margin the plain file count decides as the full count would |
| ReceiptStore.Run | packages/shared/src/memory-review-receipt.ts:285-357 | over any run with a clock that does not go back, lazy pruning gives the answers of eager pruning |
| LineFraming.TakeLines | packages/session-control-mcp/src/usage-queue-watcher.ts:275-292 | the inner loop of both readers yields the rows of a plain split within bounds, minus the end of a skipped row |
| LineFraming.SplitConcat | packages/session-control-mcp/src/session-catalog.ts:443-449 | a split can be continued from its unfinished last line |
| LineFraming.ReadOn | packages/session-control-mcp/src/session-catalog.ts:443-454 | a further read yields exactly the rows the longer text has in addition, in skip mode or not |
| LineFraming.SkipBurst | packages/session-control-mcp/src/usage-queue-watcher.ts:258-265 | a skipped burst loses every row it touches and no other |
| LineFraming.KeptPlain | packages/session-control-mcp/src/usage-queue-watcher.ts:254-293 | where nothing was lost the kept rows are those of the plain split |
| UsageWatcher.Transcript.constructor | packages/session-control-mcp/src/usage-queue-watcher.ts:190-213 | what the file holds when it is opened is not read |
| UsageWatcher.Transcript.ReadAppendedLines | packages/session-control-mcp/src/usage-queue-watcher.ts:254-293 | one poll: the rows handed out are those kept in addition, and every byte is read or lost to a burst in order |
| UsageWatcher.Watch | packages/session-control-mcp/src/usage-queue-watcher.ts:254-293 | over any polls and short reads exactly the complete rows of 1 to 64 KiB untouched by a burst; without bursts those of a plain split |
| BackgroundTasks.TrackedAreUnfinished | packages/session-control-mcp/src/session-catalog.ts:366-401 | a task is tracked if and only if some launch of it was not followed by a notification that resolves to it |
| BackgroundTasks.TrackedOrNot | packages/session-control-mcp/src/session-catalog.ts:457 | the answer of the scan in terms of launches and notifications |
| BackgroundTasks.ClosesMeans | packages/session-control-mcp/src/session-catalog.ts:386-399 | a notification closes the task its tool id names, unless a task id given besides names another or none, and without a tool id the one its task id names |
| BackgroundTasks.AliasesMean | packages/session-control-mcp/src/session-catalog.ts:386-421 | a task id names the task of the first launch that brought it since it was last free |
| BackgroundTasks.Tasks.Track | packages/session-control-mcp/src/session-catalog.ts:376-385 | a launch is tracked up to 256 tasks, beyond that the scan overflows |
| BackgroundTasks.Tasks.TakeNotification | packages/session-control-mcp/src/session-catalog.ts:386-399 | a notification closes the task it resolves to and its alias |
| BackgroundTasks.Tasks.UpdateBackgroundTaskState | packages/session-control-mcp/src/session-catalog.ts:366-401 | one row: launches, then notifications |
| BackgroundTasks.Tasks.Consume | packages/session-control-mcp/src/session-catalog.ts:425-434 | rows out of bounds or malformed are ignored |
| BackgroundTasks.ScanIncompleteBackgroundTasks | packages/session-control-mcp/src/session-catalog.ts:409-461 | for every content and every pattern of short reads the answer is that of the plain split, the unterminated last row included |
| ProcessTree.Descendants | packages/session-control-mcp/scripts/claude_code_session_reset.py:888-898 | exactly the processes below the main one, each once, for every table, cycles included |
| ProcessTree.ServiceHealth | packages/session-control-mcp/scripts/claude_code_session_reset.py:873-902 | healthy if and only if the session, and if asked the poller and all required workers, run below the main process |
| ProcessTree.ClosedHoldsAll | packages/session-control-mcp/scripts/claude_code_session_reset.py:891-898 | a set closed under children holds everything below the main process |
| SwitchHelper.Service.WriteUnit | packages/session-control-mcp/scripts/claude_code_session_reset.py:676-706 | the unit is replaced atomically or not at all |
| SwitchHelper.Service.ReloadAndRestart | packages/session-control-mcp/scripts/claude_code_session_reset.py:950-952 | the service boots the unit on disk |
| SwitchHelper.Service.ServiceHealth | packages/session-control-mcp/scripts/claude_code_session_reset.py:873-902 | never true of a process started otherwise |
| SwitchHelper.Service.WaitForResumedSession | packages/session-control-mcp/scripts/claude_code_session_reset.py:917-924 | ends only with the session running |
| SwitchHelper.Service.WaitForFreshSession | packages/session-control-mcp/scripts/claude_code_session_reset.py:905-914 | ends only with the fresh session running and its own receipt written |
| SwitchHelper.Service.WaitModelService | packages/session-control-mcp/scripts/claude_code_session_reset.py:938-947 | ends only with a process under the model |
| SwitchHelper.Service.RemoveSessionReceipt | packages/session-control-mcp/scripts/claude_code_session_reset.py:643-669 | the receipt of the session is gone |
| SwitchHelper.Service.BootResumed | packages/session-control-mcp/scripts/claude_code_session_reset.py:1254-1267 | one boot into an existing session, the original unit back afterwards |
| SwitchHelper.Service.RecoverOld | packages/session-control-mcp/scripts/claude_code_session_reset.py:995-1011 | true only if the old session runs under the original unit; in any case the unit holds the original text unless its last write had no effect |
| SwitchHelper.Service.BootFresh | packages/session-control-mcp/scripts/claude_code_session_reset.py:1066-1094 | the try block of a reset |
| SwitchHelper.Service.ResetSession | packages/session-control-mcp/scripts/claude_code_session_reset.py:1014-1127 | under any failures the unit ends as the original unless the last write of it failed; recovered implies the original unit loaded and the old session running |
| SwitchHelper.Service.ResumeSession | packages/session-control-mcp/scripts/claude_code_session_reset.py:1180-1299 | the same for a resume, where a failure before the first write counts as recovered and has changed nothing |
| SwitchHelper.Service.BootModel | packages/session-control-mcp/scripts/claude_code_session_reset.py:1405-1411 | the model’s file, a restart and the wait for it |
| SwitchHelper.Service.ModelSession | packages/session-control-mcp/scripts/claude_code_session_reset.py:1354-1447 | recovered only with the previous model file in place and, if a restart happened, a process under it |
| RequestClaims.RequestState.PruneEntry | packages/session-control-mcp/scripts/claude_code_session_reset.py:220-239 | temporary files and expired receipts go, an unreadable receipt stops the scan |
| RequestClaims.RequestState.Prune | packages/session-control-mcp/scripts/claude_code_session_reset.py:210-243 | in any directory order; on success only live receipts are left, fewer than 4096; left alone it succeeds exactly if there is room and no torn receipt |
| RequestClaims.RequestState.CreateReceipt | packages/session-control-mcp/scripts/claude_code_session_reset.py:300-325 | exclusive creation, then the content |
| RequestClaims.RequestState.ClaimRequest | packages/session-control-mcp/scripts/claude_code_session_reset.py:246-326 | a request is claimed only if it has no receipt, and a second claim lies at least the retention time after the first; left alone, a request without a receipt is claimed exactly if there is room |
| RequestClaims.RequestState.ClaimNew | packages/session-control-mcp/scripts/claude_code_session_reset.py:246-326 | the same for the part behind the check of an existing receipt |
| RequestClaims.RequestState.FinishRequest | packages/session-control-mcp/scripts/claude_code_session_reset.py:329-362 | the receipt takes its final status and keeps its claim |
| RequestClaims.Run | packages/session-control-mcp/scripts/claude_code_session_reset.py:210-362 | any runs, failing or dying anywhere: two grants of one request lie 30 days apart by the clock, and receipts number at most 4096; an untroubled run whose request has no receipt is granted exactly if there is room, as there is for the first 4096 untroubled runs |
| HelperRuns.RunHelper | packages/session-control-mcp/scripts/claude_code_session_reset.py:1014-1127 | the service is touched only by a run that holds the claim; unless the run died in its switch or lost its last write of the unit, and always if every call arrived, the unit is unchanged |
| HelperRuns.Switch | packages/session-control-mcp/scripts/claude_code_session_reset.py:1014-1447 | each switch ends in the state it announces, and one that nothing interferes with completes |
| HelperRuns.Serve | packages/session-control-mcp/scripts/claude_code_session_reset.py:1014-1447 | any requests: by the clock no request is carried out twice within the retention time, and the unit stays the original as long as every run was spared; an untroubled request is carried out if there is room |
| RootAssets.RestoreUndoes | scripts/install_root_assets.py:226-240 | a backup brings back the files it was taken of, whatever became of the destinations it covers |
| RootAssets.RestorePartly | scripts/install_root_assets.py:226-240 | a restore stopped in the middle has changed covered destinations only |
| RootAssets.InstalledAt | scripts/install_root_assets.py:274-290 | every destination ends with its asset, a preserved one with what it had |
| RootAssets.WrittenOff | scripts/install_root_assets.py:286-290 | nothing but destinations changes |
| RootAssets.Installer.TakeBackup | scripts/install_root_assets.py:106-154 | a fresh directory holds every destination as it is and the manifest in force |
| RootAssets.Installer.RestoreBackup | scripts/install_root_assets.py:226-242 | files first, installed.json last; if no call fails, only a temporary file in the way stops it |
| RootAssets.Installer.PrepareAssets | scripts/install_root_assets.py:274-284 | only a private file of the right mode and size is preserved |
| RootAssets.Installer.WriteAssets | scripts/install_root_assets.py:286-302 | the writes in order, each verified, then the manifest; a single failing call leaves the assets done so far and at most one temporary file |
| RootAssets.Installer.WriteFile | scripts/install_root_assets.py:78-98 | a failed write may leave its temporary file, and a later write of the same process finds it and fails |
| RootAssets.Installer.Replace | scripts/install_root_assets.py:286-305 | a failed write or verification brings back the world before, if no other call fails |
| RootAssets.OneFailureUndone | scripts/install_root_assets.py:286-305 | the restore stops exactly at the destination that the failed write did not reach |
| RootAssets.Installer.Install | scripts/install_root_assets.py:245-305 | a successful install is pushed on the undo stack; one with at most one failing call either succeeds or changes nothing; an untroubled one succeeds exactly if every preserved file is sound and a backup name is free |
| RootAssets.Installer.Rollback | scripts/install_root_assets.py:308-324 | a rollback pops exactly one install; one that failed half-way can be run again; an untroubled one succeeds if anything is installed |
| RootAssets.Run | scripts/install_root_assets.py:245-324 | any installs and rollbacks failing anywhere: every world of the trail is the top of an ordinary stack, an install leads to the world its assets describe, and untroubled operations succeed |
| RootAssets.InstallAndRollBack | scripts/install_root_assets.py:245-324 | installs failing anywhere and then k untroubled rollbacks: the installer shows the world before the last k installs that went through |
| RootAssets.Unwound | scripts/install_root_assets.py:308-324 | the same of the stack, by induction on the rollbacks |
| JsonScan.StringScan | packages/telegram-renderer-mcp/src/runtime-failure-reset.ts:39-63 | every string of the grammar is scanned to its closing quote and decoded |
| JsonScan.StringSound | packages/telegram-renderer-mcp/src/runtime-failure-reset.ts:39-63 | every scanned string belongs to the grammar |
| JsonScan.NumberScan | packages/telegram-renderer-mcp/src/runtime-failure-reset.ts:103-105 | every number of the grammar is matched to its end |
| JsonScan.NumberSound | packages/telegram-renderer-mcp/src/runtime-failure-reset.ts:103-105 | every match is a number of the grammar |
| JsonRecognizer.ValueScan | packages/telegram-renderer-mcp/src/runtime-failure-reset.ts:64-106 | every value of the grammar is accepted if and only if it is within the depth limit and free of duplicate names |
| JsonRecognizer.MembersScan | packages/telegram-renderer-mcp/src/runtime-failure-reset.ts:73-86 | the same for the members of an object |
| JsonRecognizer.ElementsScan | packages/telegram-renderer-mcp/src/runtime-failure-reset.ts:91-98 | the same for the elements of an array |
| JsonRecognizer.ValueSound | packages/telegram-renderer-mcp/src/runtime-failure-reset.ts:64-106 | every accepted value derives from the grammar, is within the depth limit and free of duplicate names |
| JsonRecognizer.VerdictOfValue | packages/telegram-renderer-mcp/src/runtime-failure-reset.ts:34-114 | the verdict on a JSON text depends on its value alone |
| JsonRecognizer.AcceptsExactly | packages/telegram-renderer-mcp/src/runtime-failure-reset.ts:34-114 | accepted are exactly the texts of values at most 16 levels deep whose objects have distinct decoded names |
| JsonRecognizer.StringIsLocal | packages/telegram-renderer-mcp/src/runtime-failure-reset.ts:43-61 | the string loop stops at the quote at which the string can be parsed on its own |
| JsonRecognizer.Recognizer.Whitespace | packages/telegram-renderer-mcp/src/runtime-failure-reset.ts:36-38 | the cursor moves over space |
| JsonRecognizer.Recognizer.String | packages/telegram-renderer-mcp/src/runtime-failure-reset.ts:39-63 | the cursor moves over one string and its decoded text is returned |
| JsonRecognizer.Recognizer.ObjectMembers | packages/telegram-renderer-mcp/src/runtime-failure-reset.ts:73-86 | the member loop with its set of names |
| JsonRecognizer.Recognizer.ArrayElements | packages/telegram-renderer-mcp/src/runtime-failure-reset.ts:91-98 | the element loop |
| JsonRecognizer.Recognizer.Scalar | packages/telegram-renderer-mcp/src/runtime-failure-reset.ts:99-105 | strings, literals and numbers |
| JsonRecognizer.Recognizer.Value | packages/telegram-renderer-mcp/src/runtime-failure-reset.ts:64-106 | one value at the cursor, as the specification scans it |
| JsonRecognizer.IsDuplicateFreeJson | packages/telegram-renderer-mcp/src/runtime-failure-reset.ts:34-114 | the recognizer is true if and only if the text is a JSON text of such a value |
| ObserverLedger.DeltaLeads | packages/shared/src/memory-observer-ledger.ts:323-357 | the events replayed over the previous inventory give the new one |
| ObserverLedger.DeltaShape | packages/shared/src/memory-observer-ledger.ts:323-357 | the events are numbered without gaps and well-formed |
| ObserverLedger.DeltaMeans | packages/shared/src/memory-observer-ledger.ts:323-357 | there is an event for each path that differs and for no other, in the order of the paths, numbered without gaps, telling what was and what is; replayed they give the new inventory |
| ObserverLedger.DeltaEvents | packages/shared/src/memory-observer-ledger.ts:323-357 | the loop over the sorted paths of both inventories gives one event for each path that differs, and no other, told as it was and as it is, in order |
| ObserverLedger.ListingUnique | packages/shared/src/memory-observer-ledger.ts:333 | there is but one sorted list of paths |
| ObserverLedger.SortPaths | packages/shared/src/memory-observer-ledger.ts:333 | all paths of both inventories, strictly sorted |
| ObserverLedger.PruneIncrementally | packages/shared/src/memory-observer-ledger.ts:419-422 | pruning step by step equals pruning the whole history once |
| ObserverLedger.NextLogValid | packages/shared/src/memory-observer-ledger.ts:245-281 | the ledger built passes its own validation exactly when the observation is well-formed |
| ObserverLedger.NextSound | packages/shared/src/memory-observer-ledger.ts:416-442 | an observation keeps ledger and history in agreement |
| ObserverLedger.Observer.RecordMemoryObservation | packages/shared/src/memory-observer-ledger.ts:394-453 | one observation: recorded whole or not at all, refused for another directory, rebuilt and marked after a corruption; every field of the ledger that takes it up |
| ObserverLedger.Run | packages/shared/src/memory-observer-ledger.ts:394-453 | over any observations, failures and damage: the ledger is readable exactly if an observation was written since the last damage and marked exactly if there was damage, what happened over those replays to its inventory, and for ordered times the log is that history pruned once; an untroubled well-formed observation is recorded |
| RateLimiter.Limiter.ReadTimestamps | packages/session-control-mcp/scripts/claude_code_control_broker.py:161-175 | the stored times inside the window, or an error for a time in the future |
| RateLimiter.Limiter.ReserveMutation | packages/session-control-mcp/scripts/claude_code_control_broker.py:134-188 | granted exactly while fewer than burst times are in the window and few enough jobs are pending |
| RateLimiter.Accepted | packages/session-control-mcp/scripts/claude_code_control_broker.py:169-178 | one more grant keeps every window of 60 - d seconds within burst, if the clock never went back by more than d |
| RateLimiter.StillRemembers | packages/session-control-mcp/scripts/claude_code_control_broker.py:169-178 | the file keeps everything of the last minute of the history |
| RateLimiter.Run | packages/session-control-mcp/scripts/claude_code_control_broker.py:134-188 | over any calls at any times, the times of the reservations written, in their order: the clock never goes back by more than a second, and if by no more than d, no 60 - d seconds hold more than burst of them; what is granted is written, and an untroubled call by a clock that has not gone back is granted exactly if fewer than burst lie in its last minute |
| RateLimiter.FileAgrees | packages/session-control-mcp/scripts/claude_code_control_broker.py:161-175 | by a clock that has not gone back the file counts just what the history does |
| RateLimiter.ClockGoesBack | packages/session-control-mcp/scripts/claude_code_control_broker.py:148 | with a clock that goes back by less than a second three grants fit into one minute although burst is two |
| TurnProgress.Progress.RecordTool | packages/telegram-renderer-mcp/src/progress-state.ts:105-116 | a new call joins the last line of the same step or opens one; the generation advances, and a reader sees it unless it joins a last line that is hidden |
| TurnProgress.Progress.RecordStatus | packages/telegram-renderer-mcp/src/progress-state.ts:118-133 | only a running call is settled, and only that call changes; the generation advances, and a reader sees it exactly if it is the first failure of a line that is shown |
| TurnProgress.Progress.Close | packages/telegram-renderer-mcp/src/progress-state.ts:135-146 | closing settles exactly the running calls; the generation advances, and a reader sees it exactly if there is a line |
| TurnProgress.Progress.Render | packages/telegram-renderer-mcp/src/progress-state.ts:148-170 | as many lines as fit from the first on, and the count of all others, within 4096 units |
| TurnProgress.StatusShows | packages/telegram-renderer-mcp/src/progress-state.ts:77-78 | a settled call changes the rendered lines exactly if it is the first failed one of its line, and the text exactly if that line is shown |
| TurnProgress.ToolShows | packages/telegram-renderer-mcp/src/progress-state.ts:77-78 | a call changes the text unless it joins a last line that is hidden |
| TurnProgress.CloseShows | packages/telegram-renderer-mcp/src/progress-state.ts:77-78 | closing changes the text exactly if there is a line |
| TurnProgress.ChangeShows | packages/telegram-renderer-mcp/src/progress-state.ts:148-170 | a longer line changes the text exactly if the old one was shown |
| TurnProgress.AppendShows | packages/telegram-renderer-mcp/src/progress-state.ts:148-170 | one more line always changes the text, shown or counted |
| TurnProgress.CountTells | packages/telegram-renderer-mcp/src/progress-state.ts:148-170 | a single call is not counted, and two counts never look alike |
| TurnProgress.SettledOnce | packages/telegram-renderer-mcp/src/progress-state.ts:118-146 | a settled status never changes and nothing runs in a closed turn |
| TurnProgress.Run | packages/telegram-renderer-mcp/src/progress-state.ts:75-171 | every call is on exactly one line and shows what became of it alone, and the text fits the limit |
| BackgroundProgress.Background.RecordTaskStart | packages/telegram-renderer-mcp/src/background-progress.ts:54-59 | a task is pending once, up to 16 |
| BackgroundProgress.Background.RecordTaskTerminal | packages/telegram-renderer-mcp/src/background-progress.ts:61-65 | a pending task ends once |
| BackgroundProgress.Background.RecordStart | packages/telegram-renderer-mcp/src/background-progress.ts:67-80 | an agent starts once, up to 16 |
| BackgroundProgress.Background.RecordTool | packages/telegram-renderer-mcp/src/background-progress.ts:82-98 | a call of a running agent is known, the oldest known calls make room |
| BackgroundProgress.Background.RecordToolStatus | packages/telegram-renderer-mcp/src/background-progress.ts:100-118 | only the latest running call of an agent is settled |
| BackgroundProgress.Background.RecordAgentTerminal | packages/telegram-renderer-mcp/src/background-progress.ts:120-133 | the end of an agent ends its call |
| BackgroundProgress.Background.Render | packages/telegram-renderer-mcp/src/background-progress.ts:135-171 | as many agents as fit; the text exceeds the limit, by at most 14 units, exactly if it was cut and what it shows leaves no room for the marker |
| BackgroundProgress.Background.HeaderTells | packages/telegram-renderer-mcp/src/background-progress.ts:135-171 | the first line tells exactly whether agents run, tasks are waited for, or how the work has ended |
| BackgroundProgress.BlockTells | packages/telegram-renderer-mcp/src/background-progress.ts:135-171 | the sign in front of an agent and of its last step tell their statuses, and the preview of a command is not shown |
| BackgroundProgress.ExceedsLimit | packages/telegram-renderer-mcp/src/background-progress.ts:135-171 | sixteen agents within all bounds whose text exceeds the limit |
| BackgroundProgress.Run | packages/telegram-renderer-mcp/src/background-progress.ts:36-171 | each event takes the tables one step; they stay bounded and consistent, and an agent that has ended never changes again |

## Left out

- MemoryApplier.Host.WriteJournal: a failed journal write has no effect; a commit or prepare record that fails after its effect, followed by a crash during the rollback of the same process, is a double fault the code does not cover.
- MemoryApplyCommand.HandleCommand: the loop goes on after a rollback conflict; agreement with the sequential replay is proved for runs in which no apply starts over a journal left that way, which includes every run in which processes die but no call fails; `MemoryApplyCommand.OverlapBreaksStep` shows it lost otherwise.
- ReviewWorker.Run: workers follow one another. A worker that cannot take the claim may record its failure while another holds it, and that read-modify-write is not atomic with the other's.
- SwitchHelper.Service.ResetSession: a helper that is killed leaves the unit as it was at that moment; the theorems speak of helpers that end.
- RootAssets.Run: an install that failed and left another world than it found, because it died or a further call failed, is outside the undo stack from then on.
- MemoryApplier.Host.Apply: a ledger or journal over 512 KiB is refused by the code; the clause that an applicable proposal is applied leaves that limit out.
- ManagedLedger.LedgerAfterSpec: the sort is by code units; an order of `localeCompare` that differs from it makes the code reject the apply.
- RootAssets.Installer.TakeBackup: destinations are absent or regular files; links and special files are refused by the code before anything changes, except a dangling link, which it takes for an absent file.
- UsageWatcher.Watch: transcripts only grow; a shrunk or replaced one is no longer tracked by the poller.
- ObserverLedger.NextLogValid: the patterns of paths and digests (packages/shared/src/memory-observer-ledger.ts:27-29); every path and digest counts as matching.
- ObserverLedger.Observer.RecordMemoryObservation: the 256 KiB limit on the stored file and the lock file.
- TaskRoutes.Run: artifacts, typing and cancellation timers, and the runtime-incident table are not modelled; when they end a turn, it is retired from the maps at a time that may be any.
- BubbleHistory.BubbleIsEdited: that a change of the progress text queues a flush, after its debounce, is not modelled; flushes are queued by events at any time.
- File modes, owners, link counts, pinned descriptors and UTF-8 checks on state files: checks of the platform that reject before any step modelled here.
- The details of proposal binding, idle proofs and settings are one input each: whether the checks pass.
- Messages, labels, credential and path patterns, previews, menus and command-line parsing: no deep invariant.
- Learning deltas, delivery evidence, session titles and selections: smaller stores of the same shape as the receipt store.
- The activation script, the service wiring and the sanitising of Markdown: foreign calls throughout.
