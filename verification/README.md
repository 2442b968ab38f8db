# pacode: verified state machines

Dafny models and proofs for the five state machines that carry pacode's hard guarantees:

* **ACP streaming map** (`Mapping`, `MappingRuns`, `MappingAnswers`, `MappingObject`). Deltas, live items and snapshot replays of one
  transcript become append-only ACP chunks that cannot be retracted, remembered for at most 1024 items. Text is delivered
  exactly once under eviction, resync and replay.
* **Agent history** (`Messages`, `Pairing`, `HistoryModel`, `HistoryRuns`, `HistoryObject`, `Paging`). The tool-pairing
  repair, the sequence-number allocator with its free list, the two parallel vectors that stand for a map, the queue of
  pending user messages, and paging older history out of the store.
* **Client event queue and connection lifecycle** (`EventQueueModel`, `EventQueueRuns`, `EventQueueObject`,
  `LifecycleModel`, `LifecycleObject`). Byte and count accounting with delta merging and resync markers; the epoch
  protocol that makes stale attach replies inert.
* **Prompt protocol** (`PromptModel`, `PromptObject`, `CancelFence`, `HistoryReplay`). Turn admission and snapshot gating,
  the cancellation fence over all interleavings, and the two-pass history replay against an arbitrary daemon.
* **Config split migration** (`Toml`, `Migration`). The recursive right-biased merge and the multi-file migration at every
  crash point.

Each mutable object of the source is a class whose methods equate the new state with a specification function of the old
one; what the source promises is then proved about those functions, over whole runs. The daemon, the store, the file
system, the clock and the client are parameters that answer anything. `Common` holds the types and functions they share.

The `Runs` modules and the models themselves say what must never happen; the `Answers` modules beside them say what must:
what every operation answers, exactly when it does, and that an undisturbed run reaches its end.

## Where the code and the wished-for property differ

The code is modelled as it is. Where a property fails, the exact condition is proved:

* The migration keeps the effective configuration at every crash point **if and only if** the `keys` tables of
  `config.toml` and `providers.toml` agree wherever `keybindings.toml` does not decide (`Migration.CrashSafe`,
  counterexample `Migration.CrashUnsafeExample`).
* The pairing repair is idempotent **if and only if** no assistant message repeats a call id that its run leaves unanswered
  (`Pairing.SecondPass`, counterexample `Pairing.RepeatedCallExample`).
* A live item whose seq lies below the oldest of a full retention queue is retired before its final text is taken, so that
  text is not sent (`MappingRuns.FinalText`, condition `Overtaken`; a run of 1025 items in `MappingRuns.OvertakenExample`).
* A snapshot that shows a completed item as unfinished again re-opens it; text stays exact **if and only if** the snapshot
  shows exactly the text already sent (`MappingRuns.StepFaithful`, over runs `MappingRuns.FaithfulRuns`, counterexample
  `MappingRuns.ReopenedExample`).
* The allocator stays canonical **if and only if** the last 64-bit seq is not consumed (`HistoryRuns.StepCanonical`); the
  token estimate is exact **if and only if** the sum fits 32 bits (`HistoryModel.TokensTrackSum`); older items get strictly
  decreasing numbers **if and only if** the counter does not reach zero first (`Paging.NumbersDescend`).
* A taken seq is never handed out again **if and only if** it is burned, held by a persisted reservation, or held by a row
  whose seq no open reservation shares (`HistoryRuns.NeverReissued`). A row restored under the seq of a submission still in
  flight is reissued after a clear and the rollback of that submission (`HistoryRuns.ReissuedExample`).
* A failed store read in `load_older_history` returns the items already numbered but leaves the floor. The next error-free
  call reads a message again **if and only if** there are messages below the floor and none of the reads for the first
  window failed (`Paging.FailedCallRepeats`, a concrete store in `Paging.FailedReadExample`).
* A snapshot that names the prompt's own turn as ended is reported with that turn's outcome **if and only if** no failure
  notice above the transcript floor goes uncovered by its verdict (`PromptModel.ReportExplained`); a foreign turn's notice is
  otherwise reported as the prompt's failure (`PromptModel.StrayFailureExample`).
* The accepted end of the prompt's own turn ends the prompt **if and only if** the turn is the active one, or a new turn is
  awaited and the recovery snapshot ends it (`PromptModel.OwnTurnEnded`). Recovery can turn the active own turn into waiting
  for a new one, and the end of the turn is then lost (`PromptModel.LostEndExample`).
* The documentation of `sanitize_tool_message_answered` says that a duplicate result is degraded to text. A repaired call has
  one result per id **if and only if** no message of its run repeats a result without holding a stray one
  (`PairingAnswers.AnsweredOnceIff`, counterexample `PairingAnswers.RepeatedResultExample`).
* A delta that was accepted can be lost without a resync: a control event costs queued deltas **if and only if** it replaces
  nothing and the queue has no room for it, and no context is marked for them (`EventQueueAnswers.SilentLoss`,
  counterexample `EventQueueAnswers.SilentLossExample`).
* The eviction loop of `force_terminal` ends **if and only if** the event is within the byte limit
  (`EventQueueRuns.OversizedNeverFits`).

## Model

| member | source | states |
|---|---|---|
| `Toml.DeepMerge` | crates/pacode-config/src/lib.rs:102-113 | the in-place loop, whatever order it visits the overlay in, gives the recursive right-biased merge |
| `Toml.MergeGet` | crates/pacode-config/src/lib.rs:102-113 | looking a key up in a merge is merging the two lookups, absent keys included |
| `Toml.MergeIdempotent` | crates/pacode-config/src/lib.rs:102-113 | merging a value with itself changes nothing |
| `Toml.MergeAbsorbs` | crates/pacode-config/src/lib.rs:102-113 | overlaying a merge on its own base again adds nothing, at every depth |
| `Toml.OverlayWins` | crates/pacode-config/src/lib.rs:102-113 | at every path the overlay wins where it holds a plain value, and the base shows through where the overlay is silent |
| `Migration.KeysAgreeIffCommutes` | crates/pacode-config/src/lib.rs:255-275 | the condition on the files is exactly when moving `keys` past providers.toml does not change the merged value |
| `Migration.CrashSafe` | crates/pacode-config/src/lib.rs:234-289 | for every disk: every prefix of the migration's writes keeps the effective config, if and only if the two copies of `keys` agree where keybindings.toml does not decide |
| `Migration.CrashUnsafeExample` | crates/pacode-config/src/lib.rs:255-277 | two concrete files for which a migration state changes the effective config |
| `Migration.RestartConverges` | crates/pacode-config/src/lib.rs:234-289 | re-running the migration from any crash point ends in the same files, and the backup is the untouched original |
| `Migration.MigrateOnce` | crates/pacode-config/src/lib.rs:234-243 | a migration that succeeded is a no-op from then on |
| `Migration.ConfigDir.MergeSection` | crates/pacode-config/src/lib.rs:263-273 | the sibling's own entries win over the moved legacy section |
| `Migration.ConfigDir.MoveLegacySections` | crates/pacode-config/src/lib.rs:255-277 | the section loop makes exactly the specified sequence of writes and stops at the first unreadable sibling |
| `Migration.ConfigDir.MigrateSplitFiles` | crates/pacode-config/src/lib.rs:234-289 | the migration's writes, in order, are exactly the states the crash lemmas speak about; its result is Ok exactly when they say so |
| `Migration.ConfigDir.LoadTable` | crates/pacode-config/src/lib.rs:319-332 | config, then providers, then keybindings are merged; a corrupt file is an error |
| `MigrationAnswers.SucceedsIff` | crates/pacode-config/src/lib.rs:234-289 | a migration succeeds, if and only if config.toml and every sibling that one of its sections must move to can be read |
| `MigrationAnswers.MigratedDisk` | crates/pacode-config/src/lib.rs:255-289 | afterwards config.toml has lost the two sections and nothing else, each sibling has its own entries merged over the legacy section and everything else it held, the original is backed up and the notice is set |
| `MigrationAnswers.BackupFirst` | crates/pacode-config/src/lib.rs:245-253 | every state the migration writes holds the backup; one that fails leaves config.toml as it was and announces nothing |
| `Mapping.TrackAdvances` | crates/pacode-acp/src/mapping.rs:247-266 | tracking keeps the queue duplicate-free, equal to the retained set and within 1024, never lowers the floor, and retires whatever leaves |
| `Mapping.TrackKeepsRecords` | crates/pacode-acp/src/mapping.rs:247-266 | eviction touches no record of an item that stays |
| `Mapping.ReplayItemAdvances` | crates/pacode-acp/src/mapping.rs:318-365 | replaying any item keeps the retention invariant and only raises the floor |
| `Mapping.LiveItemAdvances` | crates/pacode-acp/src/mapping.rs:547-684 | so does any live item event |
| `MappingRuns.StepFaithful` | crates/pacode-acp/src/mapping.rs:367-490 | one step keeps "text sent = text remembered" for every open item, if and only if it does not re-open a completed item with a different text |
| `MappingRuns.FaithfulRuns` | crates/pacode-acp/src/mapping.rs:318-490 | over every run: the client holds exactly the remembered text of each open item all along, if and only if no snapshot re-opens a completed item with another text than the one sent |
| `MappingRuns.ExactlyOnce` | crates/pacode-acp/src/mapping.rs:318-490 | if no snapshot re-opens a completed item, the text of a retired or complete item is moreover final |
| `MappingRuns.FinalText` | crates/pacode-acp/src/mapping.rs:367-490 | when a complete text arrives the client ends up with exactly it if what it holds is a prefix; otherwise nothing more is sent, and a divergent replay fails leaving the state; the overtaken live item is the exception |
| `MappingRuns.ReopenedExample` | crates/pacode-acp/src/mapping.rs:424-427 | a concrete run: after "ab" was sent, a snapshot showing the item unfinished with "a" makes the mapping believe the client holds "a" |
| `MappingRuns.OvertakenExample` | crates/pacode-acp/src/mapping.rs:247-266 | a concrete run: after 1024 newer items, the live and complete item 1 sends nothing and is retired |
| `MappingRuns.DeliveredForGood` | crates/pacode-acp/src/mapping.rs:462-490 | after delivery no orderly run changes what the client holds of the item |
| `MappingRuns.DivergentPartialReplay` | crates/pacode-acp/src/mapping.rs:383-409 | a partial replay succeeds exactly when it extends what was sent; otherwise it sends nothing and keeps the text |
| `MappingRuns.ChannelKept` | crates/pacode-acp/src/mapping.rs:523-585 | text goes out as thoughts for reasoning items and as messages otherwise, and only for the main agent |
| `MappingRuns.RefusedIsSilent` | crates/pacode-acp/src/mapping.rs:450-490 | no step sends text for a retired or completed item |
| `MappingRuns.OpenedFaithful` | crates/pacode-acp/src/session.rs:1277-1283 | a mapping seeded from any snapshot starts valid and faithful |
| `MappingRuns.RunAdvances` | crates/pacode-acp/src/mapping.rs:227-305 | the retention invariant and the rising floor hold over every run |
| `MappingRuns.EvictedForGood` | crates/pacode-acp/src/mapping.rs:247-266 | an evicted item is never remembered again and neither text nor replay emits it again |
| `MappingRuns.ReplayIdempotent` | crates/pacode-acp/src/mapping.rs:307-365 | a transcript that was just replayed replays to no updates and no state change, whatever the first replay evicted |
| `MappingObject.MappingState.constructor` | crates/pacode-acp/src/mapping.rs:223-225 | starts empty with floor 0 |
| `MappingObject.MappingState.Clear` | crates/pacode-acp/src/mapping.rs:227-236 | back to the empty state |
| `MappingObject.MappingState.FinishTurn` | crates/pacode-acp/src/mapping.rs:238-241 | forgets the streamed text of exactly the completed items |
| `MappingObject.MappingState.TrackItem` | crates/pacode-acp/src/mapping.rs:247-266 | the eviction loop drops at most the one oldest item and refines `Track` |
| `MappingObject.MappingState.SeedOne` | crates/pacode-acp/src/mapping.rs:279-290 | one seeded item, complete or open |
| `MappingObject.MappingState.SeedTranscriptWithSeen` | crates/pacode-acp/src/mapping.rs:273-295 | the two seeding loops refine the folds that `OpenedFaithful` is about |
| `MappingObject.MappingState.SeedToolStatuses` | crates/pacode-acp/src/mapping.rs:297-305 | the status loop refines its fold |
| `MappingObject.MappingState.MarkItemReplayed` | crates/pacode-acp/src/mapping.rs:442-448 | refines `MarkReplayed` |
| `MappingObject.MappingState.RememberToolCall` | crates/pacode-acp/src/mapping.rs:430-440 | refines `RememberTool` |
| `MappingObject.MappingState.RememberItem` | crates/pacode-acp/src/mapping.rs:411-428 | refines `Remember`, the un-completing branch included |
| `MappingObject.MappingState.RecordDelta` | crates/pacode-acp/src/mapping.rs:450-460 | false exactly for a retired or complete item; else the text grows by the delta |
| `MappingObject.MappingState.TakeFinalText` | crates/pacode-acp/src/mapping.rs:462-490 | returns the unsent suffix and completes the item |
| `MappingObject.MappingState.FinalItemUpdate` | crates/pacode-acp/src/mapping.rs:523-542 | at most one chunk, on the item's channel |
| `MappingObject.MappingState.ReplayPartialText` | crates/pacode-acp/src/mapping.rs:383-409 | sends the missing suffix or reports divergence |
| `MappingObject.MappingState.ReplayToolCall` | crates/pacode-acp/src/mapping.rs:345-358 | a start for a new call, a change only if status or view changed |
| `MappingObject.MappingState.ReplayTranscriptItem` | crates/pacode-acp/src/mapping.rs:318-365 | refines `ReplayItem`, divergence error included |
| `MappingObject.MappingState.ReplayTranscript` | crates/pacode-acp/src/mapping.rs:307-316 | the snapshot loop stops at the first divergence and refines `ReplayAll` |
| `MappingObject.MappingState.LiveItemEvent` | crates/pacode-acp/src/mapping.rs:553-684 | refines `LiveItem` |
| `MappingObject.MappingState.DeltaEvent` | crates/pacode-acp/src/mapping.rs:547-585 | refines `Delta`: a chunk exactly when the delta was recorded; with `MappingAnswers.DeltaSends`, exactly for an open main item |
| `MappingAnswers.DeltaSends` | crates/pacode-acp/src/mapping.rs:563-586 | a delta of an open main item is sent at once, whole, on the channel of its kind, and what the client holds grows by exactly it |
| `MappingAnswers.ReplayCatchesUp` | crates/pacode-acp/src/mapping.rs:325-345 | a snapshot that extends what the client holds of an open item succeeds and brings the client up to date, whether the item is complete or not |
| `MappingAnswers.OtherAgentsIgnored` | crates/pacode-acp/src/mapping.rs:548-557 | events and items of other agents change and send nothing |
| `MappingAnswers.TurnEndForgets` | crates/pacode-acp/src/mapping.rs:238-241 | the end of a turn forgets the streamed text of exactly the completed items |
| `MappingAnswers.ShownOnce` | crates/pacode-acp/src/mapping.rs:318-365 | user messages, notices and commands are shown by the first replay that meets them and never again |
| `MappingAnswers.LiveCommandShown` | crates/pacode-acp/src/mapping.rs:587-684 | a live command is shown when it is added; the other items that are neither text nor a tool call show nothing live |
| `MappingAnswers.LiveThenQuiet` | crates/pacode-acp/src/mapping.rs:558-561 | whatever was seen live is not shown again by a later snapshot |
| `MappingAnswers.ReplayTellsTool` | crates/pacode-acp/src/mapping.rs:346-359 | a replayed tool call is announced whole if it is new, as a change if its status or view changed, and not at all otherwise |
| `MappingAnswers.ToolStepFaithful` | crates/pacode-acp/src/mapping.rs:318-365 | over every step, what the client was told of a tool call that is not retired is what the mapping has recorded of it |
| `MappingAnswers.ToolDelivered` | crates/pacode-acp/src/mapping.rs:346-359 | after a live update or a replay of a tool call that is not retired the client knows its status and view |
| `MappingAnswers.SeededComplete` | crates/pacode-acp/src/mapping.rs:279-292 | an item seeded as complete takes no more text |
| `MappingAnswers.SeenIsReplayed` | crates/pacode-acp/src/mapping.rs:293-295 | what was seen before the seeding counts as replayed |
| `MappingAnswers.StatusSeeded` | crates/pacode-acp/src/mapping.rs:298-306 | a seeded status is recorded |
| `Pairing.SanitizeWellPaired` | crates/pacode-core/src/agent.rs:366-496 | for every message list, each call of the result is answered in the run right behind it, and no tool message holds a result outside such a run or for a foreign id |
| `Pairing.RepairsCounted` | crates/pacode-core/src/agent.rs:366-496 | the count is zero exactly when the list is unchanged |
| `Pairing.ConversationKept` | crates/pacode-core/src/agent.rs:372-412 | user and assistant messages pass unchanged and in order |
| `Pairing.EverythingCarried` | crates/pacode-core/src/agent.rs:417-496 | every message survives in order with all its text, a stray result as a text that names its call; only interrupted results are added |
| `Pairing.SecondPass` | crates/pacode-core/src/agent.rs:366-496 | a second pass repairs nothing, if and only if no assistant message repeats a call id that its run leaves unanswered |
| `Pairing.SanitizeIdempotent` | crates/pacode-core/src/agent.rs:366-496 | with distinct ids per assistant message the second pass returns the same list and 0 |
| `Pairing.RepeatedCallExample` | crates/pacode-core/src/agent.rs:402-409 | a concrete message for which the second pass repairs something |
| `PairingAnswers.AnswersKept` | crates/pacode-core/src/agent.rs:366-470 | for every message list: each call, in order, keeps the result it had first in the messages right behind it, unchanged, and gets the interrupted error if it had none |
| `PairingAnswers.AnsweredOnceIff` | crates/pacode-core/src/agent.rs:387-470 | a repaired call with distinct ids has exactly one result for each of them, if and only if no message of its run repeats a result without holding a stray one |
| `PairingAnswers.RepeatedResultExample` | crates/pacode-core/src/agent.rs:425-440 | a concrete message that answers its call twice and passes unrepaired |
| `PairingAnswers.UnansweredInOrder` | crates/pacode-core/src/agent.rs:404-411 | calls that nothing answers get one interrupted error each, in their order, each counted as a repair |
| `Pairing.SanitizeToolPairing` | crates/pacode-core/src/agent.rs:366-370 | well paired, same conversation, unchanged exactly when nothing was repaired |
| `Pairing.SanitizeToolPairingInto` | crates/pacode-core/src/agent.rs:372-412 | the index-walking loop appends exactly the specified repair to what `out` already holds |
| `Pairing.SanitizeStep` | crates/pacode-core/src/agent.rs:375-410 | one step of the walk repairs a message or a call with its run and leaves the repair of the rest |
| `Pairing.SanitizeRun` | crates/pacode-core/src/agent.rs:388-409 | consumes the maximal tool run and counts its repairs and the synthesized answers |
| `Pairing.SynthesizeMissing` | crates/pacode-core/src/agent.rs:402-409 | one interrupted result per call left unanswered, in call order |
| `Pairing.SanitizeAnswered` | crates/pacode-core/src/agent.rs:417-471 | results that are foreign or already answered degrade to text; the others stay and are recorded |
| `Pairing.SanitizeStrayMessage` | crates/pacode-core/src/agent.rs:473-496 | a tool message without a pending call keeps no result |
| `HistoryModel.CommitUpdates` | crates/pacode-core/src/agent.rs:158-191 | committing is map update, and the vectors stay sorted and parallel |
| `HistoryModel.RestoreInserts` | crates/pacode-core/src/agent.rs:214-234 | restoring is insert-if-absent on the same map |
| `HistoryModel.CompactKeeps` | crates/pacode-core/src/compaction.rs:581-597 | compacting removes exactly the folded part of the map and rewrites the rest in place |
| `HistoryModel.TokensTrackSum` | crates/pacode-core/src/agent.rs:158-234 | the estimate stays the exact sum, if and only if the sum fits 32 bits |
| `HistoryAnswers.StepRows` | crates/pacode-core/src/agent.rs:136-320 | every operation does to the map what it should: commits set, restores add what is missing, a clear empties, a compaction folds and rewrites, and reservations, rollbacks, discards and bumps leave it alone |
| `HistoryAnswers.RunRows` | crates/pacode-core/src/agent.rs:136-320 | after every run the two vectors stand for exactly the map that the operations describe |
| `HistoryAnswers.CommittedIsRead` | crates/pacode-core/src/agent.rs:158-190 | a committed message is read back after any run without a clear, a compaction or another commit |
| `HistoryAnswers.StepSummary` | crates/pacode-core/src/compaction.rs:581-597 | a clear forgets the summary and the tokens, a compaction that folds rows sets the summary and how far it reaches, and nothing else touches it |
| `HistoryAnswers.CounterKept` | crates/pacode-core/src/agent.rs:313-320 | only a rollback lowers the next seq; a clear keeps it |
| `HistoryRuns.StepCanonical` | crates/pacode-core/src/agent.rs:143-234 | every operation keeps "free = untaken below next, next minimal", if and only if it does not consume the last 64-bit seq |
| `HistoryRuns.RunCanonical` | crates/pacode-core/src/agent.rs:143-320 | hence over every run of reserve, persist, commit, rollback, discard, restore, clear, bump and compaction |
| `HistoryRuns.BumpCanonical` | crates/pacode-core/src/session.rs:703-705 | moving the counter past a stored seq burns what it skips and keeps the allocator canonical |
| `HistoryRuns.CompactCanonical` | crates/pacode-core/src/compaction.rs:581-597 | a compaction, which drops rows and the free list, burns what it drops and keeps the allocator canonical |
| `HistoryRuns.ReserveIsLeastUntaken` | crates/pacode-core/src/agent.rs:143-156 | in every reachable state a reservation gets the least seq nothing holds |
| `HistoryRuns.NeverReissued` | crates/pacode-core/src/agent.rs:143-320 | a taken seq is never handed out again, whatever follows, if and only if it is burned, held by a persisted reservation, or held by a row whose seq no open reservation shares |
| `HistoryRuns.SecuredForever` | crates/pacode-core/src/agent.rs:143-320 | such a seq stays so over every run |
| `HistoryRuns.ClearRollbackReissues` | crates/pacode-core/src/agent.rs:193-212 | from any other state, a clear and the rollback of the open reservation hand the seq out again |
| `HistoryRuns.ReissuedExample` | crates/pacode-core/src/agent.rs:193-234 | a concrete run in which the seq of a restored row is handed out again |
| `HistoryRuns.ForkCanonical` | crates/pacode-core/src/session.rs:1576-1585 | a forked history starts canonical: the reservations it does not share count as burned |
| `HistoryRuns.AdoptedCanonical` | crates/pacode-core/src/session.rs:1951-1961 | so does a history loaded from the store |
| `HistoryRuns.CanonicalUnique` | crates/pacode-core/src/agent.rs:193-212 | the allocator's state is a function of what is taken |
| `HistoryRuns.RollbackOrderIrrelevant` | crates/pacode-core/src/agent.rs:193-212 | rolling back a set of unpersisted reservations leaves the same state in every order |
| `HistoryRuns.ReserveRollbackRoundTrip` | crates/pacode-core/src/agent.rs:143-212 | reserving any messages and rolling all of them back, in any order, restores the history exactly |
| `HistoryObject.BinarySearch` | crates/pacode-core/src/agent.rs:174-190 | the position of a key in the sorted vector, or where it goes |
| `HistoryObject.History.constructor` | crates/pacode-core/src/agent.rs:116-132 | starts empty |
| `HistoryObject.History.Push` | crates/pacode-core/src/agent.rs:135-141 | reserves and commits at once |
| `HistoryObject.History.Reserve` | crates/pacode-core/src/agent.rs:143-156 | takes the least free seq, else the next one |
| `HistoryObject.History.CommitReserved` | crates/pacode-core/src/agent.rs:158-191 | appends, replaces or inserts once per reservation, refining `Commit` |
| `HistoryObject.History.RollbackReserved` | crates/pacode-core/src/agent.rs:193-212 | frees the seq unless persisted, committed or settled before, and gives back the top of the range |
| `HistoryObject.History.RestoreRow` | crates/pacode-core/src/agent.rs:214-234 | refines `Restore` |
| `HistoryObject.History.Clear` | crates/pacode-core/src/agent.rs:313-320 | drops the rows and keeps the next seq |
| `HistoryObject.History.BumpNext` | crates/pacode-core/src/session.rs:703-705 | the counter moves past the stored seq, never back |
| `HistoryObject.History.Rows` | crates/pacode-core/src/agent.rs:322-328 | lists exactly the map the vectors stand for, in seq order |
| `HistoryObject.History.ForModel` | crates/pacode-core/src/agent.rs:342-353 | the summary and then the repaired messages; always well paired |
| `HistoryObject.PendingMessages.ReserveUserMessage` | crates/pacode-core/src/agent.rs:732-744 | reserves and queues the message last |
| `HistoryObject.PendingMessages.ReserveUserMessageWithAdmission` | crates/pacode-core/src/agent.rs:746-754 | the same, and the reservation carries the admission |
| `HistoryObject.PendingMessages.RollbackUserMessage` | crates/pacode-core/src/agent.rs:756-771 | the message leaves the queue, the others keep their order, and the history rolls back |
| `HistoryObject.PendingMessages.CommitPendingUserMessages` | crates/pacode-core/src/agent.rs:773-795 | commits the persisted front of the queue, in order, and nothing behind the first unpersisted message |
| `HistoryObject.CommitManyReads` | crates/pacode-core/src/agent.rs:773-795 | every open reservation committed from the queue is read back, unless a later one has its seq |
| `HistoryObject.PendingMessages.DiscardPendingUserMessages` | crates/pacode-core/src/agent.rs:797-815 | empties the queue, settles every message in it, records all their seqs and returns their admissions in order |
| `HistoryObject.GivenExactly` | crates/pacode-core/src/agent.rs:797-815 | exactly the admissions that the discarded messages carried are returned |
| `Paging.Store.LoadMessagesBefore` | crates/pacode-store/src/queries/message.rs:479-522 | the last `limit` rows before the cursor, ascending, or a failure |
| `Paging.CoveredOnce` | crates/pacode-core/src/agent.rs:1376-1463 | contiguous windows contain every message between two floors exactly once |
| `Paging.CallsChain` | crates/pacode-core/src/agent.rs:1376-1463 | the windows of two calls in a row are contiguous together |
| `Paging.CallsContiguous` | crates/pacode-core/src/agent.rs:1376-1463 | so are those of any number of error-free calls |
| `Paging.NumbersDescend` | crates/pacode-core/src/agent.rs:1351-1360 | item numbers are below the tail and strictly decreasing, if and only if the counter does not saturate |
| `Paging.ShrinkShrinks` | crates/pacode-core/src/agent.rs:1424-1438 | the re-read after an overrun asks for at least one and strictly fewer messages, unless the window held one |
| `Paging.NextWindowFits` | crates/pacode-core/src/agent.rs:1397-1445 | the window the inner loop settles on fits the budget or is a single message |
| `Paging.LoadContiguous` | crates/pacode-core/src/agent.rs:1376-1463 | a call consumes contiguous windows from its start to where it ends, also if a read fails |
| `Paging.LoadFits` | crates/pacode-core/src/agent.rs:1376-1463 | windows are taken while the budget is not spent, and one that overruns it is a single message |
| `Paging.FailedCallRepeats` | crates/pacode-core/src/agent.rs:1402-1414 | after a failed call, the next error-free call covers a row again, if and only if there are rows below the floor and none of the reads for the first window failed |
| `Paging.WindowReads` | crates/pacode-core/src/agent.rs:1402-1438 | the inner loop fails exactly if one of the reads it would make fails |
| `Paging.FailedReadExample` | crates/pacode-core/src/agent.rs:1402-1414 | two messages and a failing second read: both are returned twice |
| `Paging.OlderHistory.NumberEntries` | crates/pacode-core/src/agent.rs:1351-1360 | numbers entries downward from the counter and moves it |
| `Paging.OlderHistory.ReadWindow` | crates/pacode-core/src/agent.rs:1397-1445 | the inner loop refines `NextWindow`: the window right below the cursor whose items fit, or a single message, or a failed read |
| `Paging.OlderHistory.LoadOlderHistory` | crates/pacode-core/src/agent.rs:1376-1463 | refines `LoadFrom`: contiguous windows from the floor, failed or not; the items are exactly their projection, numbered downward; only a single-message last window overruns the budget; the new floor is where the windows end, or the old one after a failed read |
| `PagingAnswers.LoadDelivers` | crates/pacode-core/src/agent.rs:1392-1463 | a call goes on until it has its items, met the end or a read failed; it met the end exactly if it read everything with budget left |
| `PagingAnswers.LoadFailsIff` | crates/pacode-core/src/agent.rs:1402-1414 | a call fails, if and only if one of the reads it makes fails, and that read is its last |
| `PagingAnswers.WindowTaken` | crates/pacode-core/src/agent.rs:1397-1445 | a page that fits is taken as it is; a wider one is read again with the smaller number, or taken if that is not smaller |
| `PagingAnswers.ShrunkIsLargest` | crates/pacode-core/src/agent.rs:1424-1431 | the re-read asks for the largest number of messages that fits at the rate the window revealed, at least one |
| `PagingAnswers.PageIsFull` | crates/pacode-store/src/queries/message.rs:479-522 | a page holds as many rows as were asked for, 200 by default, or all there are |
| `PagingAnswers.NumberedInOrder` | crates/pacode-core/src/agent.rs:1351-1360 | numbering loses and changes no entry and counts down without a gap until the counter saturates |
| `PagingAnswers.PagesReachTheStart` | crates/pacode-core/src/agent.rs:1376-1463 | without failed reads, as many calls as there are messages, each for at least one item, page down to the first message in contiguous windows |
| `PagingAnswers.EveryMessagePaged` | crates/pacode-core/src/agent.rs:1376-1463 | so every stored message is in exactly one window |
| `EventQueueRuns.PushEffect` | crates/pacode-client/src/lib.rs:623-742 | an accepted delta extends the queued text of its own stream by exactly its text; a control event leaves only by same-key replacement or a reconnect; a refused delta is marked; overflow loses nothing but deltas |
| `EventQueueAnswers.DeltaAnswer` | crates/pacode-client/src/lib.rs:636-692 | a delta is accepted, dropped or overflows, each if and only if: it is unlisted and continues the last entry within 16 MiB or meets the admission limits; it is listed, or does not fit and can be marked; neither |
| `EventQueueAnswers.AcceptedDeltaIsLast` | crates/pacode-client/src/lib.rs:646-687 | an accepted delta moves nothing: it joins the last entry or becomes a new one, and its seq is then the last queued |
| `EventQueueAnswers.ControlAnswer` | crates/pacode-client/src/lib.rs:693-742 | a control event is accepted, if and only if it fits in place of the state it replaces, or beside the control events alone; otherwise it overflows |
| `EventQueueAnswers.MarkerAnswer` | crates/pacode-client/src/lib.rs:632-637 | a marker is accepted, if and only if its context is listed, or fewer than eight are and the control events alone leave room |
| `EventQueueAnswers.RoomIffControlsFit` | crates/pacode-client/src/lib.rs:727-738 | the eviction loop makes room, if and only if the control events alone leave it |
| `EventQueueAnswers.NoEvictionHelps` | crates/pacode-client/src/lib.rs:727-738 | that is exactly when some loss of deltas, whichever, would make room |
| `EventQueueAnswers.EvictsOldestOnly` | crates/pacode-client/src/lib.rs:727-738 | eviction takes the oldest deltas, and no more of them than it has to |
| `EventQueueAnswers.SilentLoss` | crates/pacode-client/src/lib.rs:693-742 | an accepted control event is queued last and costs queued deltas, if and only if it replaces nothing and the queue has no room for it; no context is marked for it |
| `EventQueueAnswers.SilentLossExample` | crates/pacode-client/src/lib.rs:727-742 | a concrete run in which an accepted delta is lost and no resync is asked for |
| `EventQueueAnswers.LatestStateOnly` | crates/pacode-client/src/lib.rs:693-717 | an accepted state of a session, credential or login is the only one queued of its thing |
| `EventQueueAnswers.SnapshotTakesCovered` | crates/pacode-client/src/lib.rs:797-817 | an applied snapshot takes out exactly the non-global events of its session up to its seq and the markers it reaches, and moves nothing else |
| `EventQueueAnswers.TerminalSparesControls` | crates/pacode-client/src/lib.rs:819-838 | the terminal event costs a control event only if the control events leave it no room |
| `EventQueueAnswers.ReceivedInOrder` | crates/pacode-client/src/lib.rs:971-976 | the receiver takes the events in the order in which they are queued, and their bytes with them |
| `EventQueueRuns.MergeBackGood` | crates/pacode-client/src/lib.rs:646-668 | a merged entry stays within the byte limit, so the overflow branch after a merge is unreachable |
| `EventQueueRuns.MergeBackText` | crates/pacode-client/src/lib.rs:505-606 | merging changes no other stream's text and no control event |
| `EventQueueRuns.JsonLikeIsSubadditive` | crates/pacode-client/src/lib.rs:473-503 | a JSON-like size (frame, digits, escaped text) meets the size hypothesis |
| `EventQueueRuns.MarkGood` | crates/pacode-client/src/lib.rs:763-795 | marking lists the context once with a floor at or above the seq, among at most eight, and evicts only deltas |
| `EventQueueRuns.SnapshotGood` | crates/pacode-client/src/lib.rs:797-817 | a snapshot removes exactly the outdated entries and exactly the listings it reaches |
| `EventQueueRuns.RunGood` | crates/pacode-client/src/lib.rs:623-838 | every run keeps the queue invariant |
| `EventQueueRuns.ReachableGood` | crates/pacode-client/src/lib.rs:613-838 | in every reachable state the byte count is exact and at most 16 MiB, there are at most 1024 events, and every queued marker is listed, once, among at most eight |
| `EventQueueRuns.BlockHolds` | crates/pacode-client/src/lib.rs:627-692 | a step lifts the block on a context exactly if it is a reconnect or a snapshot reaching the floor; no delta of the context enters |
| `EventQueueRuns.NoDeltaAfterRefusal` | crates/pacode-client/src/lib.rs:627-692 | after a refused delta its context stays listed at or above it and no delta of it enters, over every run, until lifted |
| `EventQueueRuns.OversizedNeverFits` | crates/pacode-client/src/lib.rs:819-838 | from every queue the eviction loop of force_terminal reaches room, if and only if the event is within the byte limit; a larger one fits no queue at all |
| `EventQueueRuns.EvictLoopEnds` | crates/pacode-client/src/lib.rs:823-833 | any number of turns keeps the invariant; with as many turns as there are events the loop ends exactly for events within the byte limit |
| `EventQueueRuns.EvictionEnds` | crates/pacode-client/src/lib.rs:823-833 | otherwise it leaves with `ForceRoom` after exactly as many turns as it stays crowded |
| `EventQueueRuns.TerminalIsLast` | crates/pacode-client/src/lib.rs:819-838 | after force_terminal the terminal event is last and nothing is accepted, over every run |
| `EventQueueObject.EventQueue.constructor` | crates/pacode-client/src/lib.rs:613-621 | starts empty and open |
| `EventQueueObject.EventQueue.RemoveAt` | crates/pacode-client/src/lib.rs:744-748 | removes one entry and its bytes |
| `EventQueueObject.EventQueue.RetainEvents` | crates/pacode-client/src/lib.rs:750-761 | keeps exactly the chosen entries in order and recounts the bytes |
| `EventQueueObject.EventQueue.MakeRoom` | crates/pacode-client/src/lib.rs:727-738 | the eviction loop drops the oldest deltas until the event fits, or reports that it cannot |
| `EventQueueObject.EventQueue.MarkResync` | crates/pacode-client/src/lib.rs:763-795 | refines `MarkResync` and keeps the invariant |
| `EventQueueObject.EventQueue.MergeIntoLast` | crates/pacode-client/src/lib.rs:563-606 | the last entry becomes the merged delta with its new size |
| `EventQueueObject.EventQueue.Push` | crates/pacode-client/src/lib.rs:623-742 | refines `Push`, whose result `DeltaAnswer`, `ControlAnswer` and `MarkerAnswer` of `EventQueueAnswers` fix for every event, and keeps the invariant |
| `EventQueueObject.EventQueue.SnapshotApplied` | crates/pacode-client/src/lib.rs:797-817 | refines `SnapshotApplied` and keeps the invariant |
| `EventQueueObject.EventQueue.ForceTerminal` | crates/pacode-client/src/lib.rs:819-838 | run for any number of turns of its loop: if it returns, the state is `ForceTerminal` of the old one; with as many turns as there are events it returns exactly for events within the byte limit |
| `EventQueueObject.EventQueue.EvictTurns` | crates/pacode-client/src/lib.rs:824-833 | the eviction loop, for any event size |
| `EventQueueObject.EventQueue.Close` | crates/pacode-client/src/lib.rs:840-842 | closes and changes nothing else |
| `EventQueueObject.EventQueue.TryRecv` | crates/pacode-client/src/lib.rs:971-977 | takes the oldest event and its bytes |
| `LifecycleModel.StepInv` | crates/pacode-client/src/lib.rs:141-253 | every operation, with request ids in any order, each used once, keeps: an attached session is the desired attempt's resume target in the current epoch; superseded attempts are stale; one key per session epoch |
| `LifecycleModel.RunInv` | crates/pacode-client/src/lib.rs:141-385 | hence over every run; what is superseded stays superseded |
| `LifecycleModel.StaleRepliesAreInert` | crates/pacode-client/src/lib.rs:202-253 | in every later state, no reply, failure or abandonment of a superseded attempt, nor of any copy that shares its request id and session epoch, changes anything, and it is never current, sent or committed |
| `LifecycleModel.StartingOverSupersedes` | crates/pacode-client/src/lib.rs:141-200 | attach, detach, retry and renewal supersede everything issued before |
| `LifecycleModel.ReconnectRace` | crates/pacode-client/src/connection.rs:364-370 | an attach that drew its id first and runs after a reconnect renewed with a later id supersedes that renewal |
| `LifecycleModel.AttachedIsDesired` | crates/pacode-client/src/lib.rs:360-385 | from the start, over every run: attached means desired in the current epoch; retries and renewals keep the idempotency key |
| `LifecycleModel.EventsIncrease` | crates/pacode-client/src/lib.rs:255-303 | accepted session events have strictly increasing seqs above the floor, across retries, reconnects and repeated snapshots |
| `LifecycleAnswers.IssuedIsAwaited` | crates/pacode-client/src/lib.rs:141-200 | an attach, a retry of the same unattached target and a renewal with something desired issue an attempt, and nothing else does; what they issue is awaited under the same key, target and epoch |
| `LifecycleAnswers.AwaitedAttaches` | crates/pacode-client/src/lib.rs:202-225 | the reply to the awaited attempt attaches its session, which is resumed from then on, and raises both floors to the snapshot |
| `LifecycleAnswers.AttachesIff` | crates/pacode-client/src/lib.rs:360-385 | a reply attaches, if and only if its attempt is the desired one on the current connection; after a reconnect, on the one it was made on |
| `LifecycleAnswers.AttachCompletes` | crates/pacode-client/src/lib.rs:141-212 | an attach completes: whatever events, snapshots and replies to other attempts come first, its reply attaches the session, and an event is then accepted exactly above the snapshot |
| `LifecycleAnswers.ReattachCompletes` | crates/pacode-client/src/lib.rs:193-225 | a lost connection is taken up again: the reply to the renewed attempt attaches, and no event seen before is accepted twice |
| `LifecycleAnswers.FailureDetaches` | crates/pacode-client/src/lib.rs:227-242 | a failure of the awaited attempt leaves the client as a detach would |
| `LifecycleAnswers.FailureClearsIff` | crates/pacode-client/src/lib.rs:227-242 | exactly the failure of the attempt desired on this connection clears it |
| `LifecycleAnswers.AbandonUndoesReply` | crates/pacode-client/src/connection.rs:64-90 | abandoning an attach undoes the reply to it, so that a retry of the first target is issued under the same key |
| `LifecycleAnswers.AbandonsIff` | crates/pacode-client/src/connection.rs:64-90 | exactly the awaited attempt, acknowledged or not, is rolled back |
| `LifecycleAnswers.AcceptsRecords` | crates/pacode-client/src/lib.rs:255-272 | of any session events exactly those that exceed all earlier ones and the floor are accepted |
| `LifecycleAnswers.RisingDelivered` | crates/pacode-client/src/lib.rs:255-272 | an attached client loses no event of a rising series above its floor |
| `LifecycleAnswers.AnswersWhileAttached` | crates/pacode-client/src/lib.rs:255-303 | exactly when events, resyncs and snapshots are taken, and what a snapshot taken covers |
| `LifecycleAnswers.CommitsIff` | crates/pacode-client/src/lib.rs:310-336 | a connection commits with what is attached, or with nothing exactly if nothing is desired |
| `LifecycleObject.LifecycleState.constructor` | crates/pacode-client/src/lib.rs:109-119 | starts a run: detached in session epoch 0 |
| `LifecycleObject.LifecycleState.BeginAttach` | crates/pacode-client/src/lib.rs:141-160 | a new epoch, the new attempt desired, nothing attached, everything issued before superseded |
| `LifecycleObject.LifecycleState.BeginDetach` | crates/pacode-client/src/lib.rs:162-169 | a new epoch, nothing desired or attached, everything issued before superseded |
| `LifecycleObject.LifecycleState.RetryAttach` | crates/pacode-client/src/lib.rs:176-191 | only for the same target while nothing is attached; keeps key and epoch and supersedes what was issued before |
| `LifecycleObject.LifecycleState.RenewAttachRequestId` | crates/pacode-client/src/lib.rs:193-200 | a fresh id, same key and epoch; supersedes what was issued before |
| `LifecycleObject.LifecycleState.RememberAttachedUnlocked` | crates/pacode-client/src/lib.rs:360-385 | refines `RememberAttached`: the desired attempt attaches, as `LifecycleAnswers.AwaitedAttaches` says, and no other does; reports whether the snapshot moved forward |
| `LifecycleObject.LifecycleState.RememberIfCurrent` | crates/pacode-client/src/lib.rs:202-212 | one step of the run; a reply for another connection or to a superseded attempt changes nothing |
| `LifecycleObject.LifecycleState.RememberReconnect` | crates/pacode-client/src/lib.rs:214-225 | one step of the run; a reply for another connection or to a superseded attempt changes nothing |
| `LifecycleObject.LifecycleState.ClearFailedAttach` | crates/pacode-client/src/lib.rs:227-242 | one step of the run; clears only for the current outgoing attempt, never for a superseded one |
| `LifecycleObject.LifecycleState.ClearUnacknowledgedAttachState` | crates/pacode-client/src/connection.rs:64-90 | rolls the attach back to its first target only if its waiter is still the current one, never for a superseded attempt |
| `LifecycleObject.LifecycleState.AcceptedEventContext` | crates/pacode-client/src/lib.rs:255-272 | accepts session events only above both floors |
| `LifecycleObject.LifecycleState.AcceptedResyncContext` | crates/pacode-client/src/lib.rs:274-284 | accepts a resync only for an attached session and a seq above the floors |
| `LifecycleObject.LifecycleState.ObserveSnapshot` | crates/pacode-client/src/lib.rs:286-303 | takes only a snapshot of the attached session that does not go back |
| `LifecycleObject.LifecycleState.CommitConnection` | crates/pacode-client/src/lib.rs:310-336 | the commit runs once, and only if attempt and session still agree with the state; never for a superseded attempt |
| `LifecycleObject.LifecycleState.AdvanceConnection` | crates/pacode-client/src/lib.rs:305-308 | the connection epoch moves by one and nothing else |
| `PromptModel.NextInv` | crates/pacode-acp/src/session.rs:356-549 | every input keeps: the active turn is the expected one and confirmed, confirmation has evidence, the gate is open exactly without a gap since the last snapshot, the floor is the last accepted seq, reissues at most 3 |
| `PromptModel.GatedEvents` | crates/pacode-acp/src/session.rs:466-510 | in every reachable state a session event is accepted exactly in the current context, with no gap since the last snapshot, above the last accepted seq |
| `PromptModel.EpochsRise` | crates/pacode-acp/src/session.rs:356-510 | no input lowers (connection epoch, session epoch), and raising the connection epoch without a snapshot closes the gate |
| `PromptModel.EpochsRiseInRuns` | crates/pacode-acp/src/session.rs:356-510 | the epochs are lexicographically nondecreasing over every run |
| `PromptModel.ProcessReports` | crates/pacode-acp/src/session.rs:1573-1795 | processing any client event keeps the invariant, and reports an end of turn only with evidence of the prompt's own turn |
| `PromptModel.ReportExplained` | crates/pacode-acp/src/session.rs:551-632 | a report is the stop of the own active turn, or comes from the applied snapshot, which shows no active turn and no foreign last one; a snapshot naming the own turn is reported with that turn's outcome, if and only if no failure notice above the floor goes uncovered |
| `PromptModel.StrayFailureExample` | crates/pacode-acp/src/session.rs:584-632 | a concrete snapshot: the own turn completed, and a foreign turn's failure notice is reported |
| `PromptModel.ForeignTurnsNeverFinish` | crates/pacode-acp/src/session.rs:404-582 | from a new correlated prompt, over every preflight and event sequence: an end is reported only after an accepted TurnStarted or snapshot named the prompt's turn, and by the last event processed, which ends that turn or applies a snapshot that shows its end, with the outcome `ReportExplained` says; the active turn is never foreign; at most 3 reissues |
| `PromptModel.ForeignTurnEnded` | crates/pacode-acp/src/session.rs:1616-1683 | the end of a foreign turn changes nothing but the event floor, unless a new turn is awaited: then it starts the recovery |
| `PromptModel.OwnTurnEnded` | crates/pacode-acp/src/session.rs:1616-1674 | the accepted end of the own turn ends the prompt, if and only if the turn is active (completed is EndTurn, interrupted is Cancelled, failed is its failure), or a new turn is awaited and the recovery snapshot ends it |
| `PromptModel.RecoverEnds` | crates/pacode-acp/src/session.rs:1621-1664 | recovery ends the prompt, if and only if the first fetched snapshot that applies shows the own turn ended, or names no turn and reports a failure or a stop |
| `PromptModel.LostEndExample` | crates/pacode-acp/src/session.rs:1645-1645 | a concrete run in which the own turn ends and the prompt goes on waiting |
| `PromptAnswers.SnapshotEventAnswer` | crates/pacode-acp/src/session.rs:1685-1716 | the answer to every snapshot event in every admission state: refused snapshots pass; an applied one reissues the admission, ends the prompt with the outcome it shows, or passes |
| `PromptAnswers.ResyncAnswer` | crates/pacode-acp/src/session.rs:1717-1770 | the answer to every resync in every admission state, for every reply of the daemon: the same as to the fetched snapshot |
| `PromptAnswers.DeliveredSnapshotEnds` | crates/pacode-acp/src/session.rs:1685-1770 | a delivered snapshot ends the prompt, if and only if it is applied, the prompt may complete, and it shows the end of the own turn or of an idle agent whose turn was seen |
| `PromptAnswers.AppliedAnswer` | crates/pacode-acp/src/session.rs:541-632 | an applied snapshot reissues the admission, if and only if the prompt is submitted, unconfirmed also by this snapshot, and below three attempts |
| `PromptAnswers.RecoverAnswers` | crates/pacode-acp/src/session.rs:1621-1664 | the recovery answers what the first of three fetched snapshots that is accepted asks for, and breaks if there is none |
| `PromptAnswers.AwaitedEndAnswer` | crates/pacode-acp/src/session.rs:1616-1670 | while a new turn is awaited, the end of any main turn is answered by the recovery |
| `PromptAnswers.SnapshotAdmits` | crates/pacode-acp/src/session.rs:404-439 | an accepted snapshot opens the gate at its seq and shows the own turn active, over, behind another turn or still awaited |
| `PromptAnswers.EventAdmits` | crates/pacode-acp/src/session.rs:488-523 | only the start of the own turn, and its end while active, change the admission; the other events pass |
| `PromptAnswers.OtherAnswers` | crates/pacode-acp/src/session.rs:466-510 | exactly which session and global events are refused, and what a permission request and a global event answer |
| `PromptAnswers.ConnectionAnswers` | crates/pacode-acp/src/session.rs:1771-1795 | connection events pass and close the gate; a failure to resume the own session that is not older breaks the prompt |
| `PromptAnswers.OrdinaryRun` | crates/pacode-acp/src/session.rs:1573-1683 | the ordinary run: the own turn starts, any events of the session follow, and its end ends the prompt with EndTurn, Cancelled or the failure |
| `PromptAnswers.ReconnectFinishes` | crates/pacode-acp/src/session.rs:1685-1795 | a prompt that loses its connection is ended by the snapshot of the next one that shows its turn over |
| `PromptObject.PromptEventState.NewCorrelated` | crates/pacode-acp/src/session.rs:271-298 | a new prompt satisfies the invariant |
| `PromptObject.PromptEventState.AcceptConnected` | crates/pacode-acp/src/session.rs:356-366 | a newer connection is a gap |
| `PromptObject.PromptEventState.AcceptContext` | crates/pacode-acp/src/session.rs:368-377 | accepts exactly the own session and session epoch on a connection not older |
| `PromptObject.PromptEventState.AcceptAttachFailed` | crates/pacode-acp/src/session.rs:383-402 | accepts only a failure to resume the own session that is not older |
| `PromptObject.PromptEventState.AcceptSnapshot` | crates/pacode-acp/src/session.rs:404-439 | refines the snapshot step; an older snapshot in an applied context is refused |
| `PromptObject.PromptEventState.SetPromptFloor` | crates/pacode-acp/src/session.rs:441-444 | sets both floors |
| `PromptObject.PromptEventState.RecordSnapshotBoundary` | crates/pacode-acp/src/session.rs:446-455 | an awaited turn stays awaited across an idle boundary |
| `PromptObject.PromptEventState.AcceptResync` | crates/pacode-acp/src/session.rs:457-464 | an accepted resync is a gap |
| `PromptObject.PromptEventState.AcceptEvent` | crates/pacode-acp/src/session.rs:488-510 | refines the event step; only the expected TurnStarted activates |
| `PromptObject.PromptEventState.CompleteTurn` | crates/pacode-acp/src/session.rs:512-523 | completes only the active turn of the main agent |
| `PromptObject.PromptEventState.MarkPromptSubmitted` | crates/pacode-acp/src/session.rs:529-531 | from then on an admission may need its fence |
| `PromptObject.PromptEventState.TakeAdmissionFence` | crates/pacode-acp/src/session.rs:541-549 | returns the request only while unconfirmed and below three attempts, and counts the attempt |
| `PromptObject.PromptEventState.DecideAfterSnapshot` | crates/pacode-acp/src/session.rs:551-632 | reissue, report failure, report stop, or go on, in this order |
| `PromptObject.PromptEventState.RecoverBoundary` | crates/pacode-acp/src/session.rs:1620-1670 | asks for at most three snapshots until one applies |
| `PromptObject.PromptEventState.ProcessPromptEvent` | crates/pacode-acp/src/session.rs:1573-1795 | refines the event step, whose answer to every event `PromptAnswers` fixes, keeps the invariant, reports only with evidence |
| `CancelFence.NextInv` | crates/pacode-acp/src/session.rs:1347-1412 | every step of every task keeps mutual exclusion under the submission lock and the log properties |
| `CancelFence.FenceHolds` | crates/pacode-acp/src/session.rs:1507-1571 | over all interleavings of senders, interrupts and closes, dropped anywhere: nothing of an older generation is sent after a signal, nothing after a close, published generations never fall, and an acknowledgement is published only after the daemon heard that generation; who does send is in `CancelFenceAnswers.PassesIffCurrent` |
| `CancelFence.BumpInv` | crates/pacode-acp/src/session.rs:1839-1906 | signalling under the lock finds no other task past its check |
| `CancelFence.OvertakenPrompt` | crates/pacode-acp/src/session.rs:1839-1855 | a concrete run: an interrupt overtakes a waiting prompt, is heard and acknowledged, and the prompt is refused without having sent anything |
| `CancelFence.WatcherNeedsAcknowledgement` | crates/pacode-acp/src/session.rs:1391-1412 | a waiter reports success only on an acknowledged status of its generation or a later one |
| `CancelFence.SuccessMeansHeard` | crates/pacode-acp/src/session.rs:1357-1412 | over every run, a waiter that reports success was told the truth: the daemon heard an interrupt or close of its generation or a later one |
| `CancelFence.WaitEndsIffCancelled` | crates/pacode-acp/src/session.rs:1368-1389 | a prompt stops waiting exactly if it saw a newer generation, or its own in progress and then the outcome |
| `CancelFenceAnswers.PassesIffCurrent` | crates/pacode-acp/src/session.rs:1507-1561 | in every reachable state a sender passes the check and sends, if and only if the session is open and its generation is the current one; anyone else leaves without sending |
| `CancelFenceAnswers.AcquiresIffFree` | crates/pacode-acp/src/session.rs:2026-2036 | a waiting task gets the submission lock exactly when nobody holds it |
| `CancelFenceAnswers.UncancelledIsSent` | crates/pacode-acp/src/session.rs:2026-2036 | what nobody cancels is sent: a current sender that waited through any steps of other tasks without a signal sends once the lock is free |
| `CancelFenceAnswers.FirstPromptSent` | crates/pacode-acp/src/session.rs:2026-2036 | a concrete run in which a prompt is sent |
| `CancelFenceAnswers.SignalEffect` | crates/pacode-acp/src/session.rs:1839-1862 | signalling moves the generation on and closes on a close; a closed session is not interrupted again, and a second close joins the first |
| `CancelFenceAnswers.CancellationDelivered` | crates/pacode-acp/src/session.rs:1839-1906 | an interrupt or close that has the lock of an open session is signalled, delivered and acknowledged in that order, and frees the lock |
| `CancelFenceAnswers.HolderFinishes` | crates/pacode-acp/src/session.rs:1507-1571 | in every reachable state whoever holds the lock can go on and release it, without being dropped |
| `CancelFenceAnswers.WaiterAnswers` | crates/pacode-acp/src/session.rs:1391-1412 | a waiter answers, if and only if it sees a settled status not older than its generation or any it has seen, and the first such status is its answer |
| `HistoryReplay.Connection.SendReplayedItems` | crates/pacode-acp/src/session.rs:937-952 | sends a prefix of the main items in order, all of them exactly on success, and stops at the first send that fails |
| `HistoryReplay.Replayer.CheckSnapshot` | crates/pacode-acp/src/session.rs:960-974 | accepts exactly the strictly ordered snapshots and finds their first seq |
| `HistoryReplay.Replayer.ReadPage` | crates/pacode-acp/src/session.rs:985-1027 | refuses exactly the replies no pass may use |
| `HistoryReplay.Replayer.CollectPages` | crates/pacode-acp/src/session.rs:975-1043 | the first pass ends within 32 pages; its pages chain downward below the snapshot; it fails only on a refused reply |
| `HistoryReplay.Replayer.ResendPages` | crates/pacode-acp/src/session.rs:1051-1092 | the second pass sends the pages oldest first, strictly increasing, and fails only on a changed page or a failed send |
| `HistoryReplay.Replayer.ReplayHistoryPages` | crates/pacode-acp/src/session.rs:954-1102 | whatever the daemon answers, the seqs sent are strictly increasing across all pages and the snapshot, also on error, within 65 requests; success sends exactly the walked pages and the snapshot |
| `HistoryReplay.FaithfulReplay` | crates/pacode-acp/src/session.rs:954-1102 | against a daemon that serves one stored transcript, a successful replay sends its items below the snapshot without gap or repeat, from the beginning unless a bound stopped the walk |
| `HistoryReplay.FaithfulBlame` | crates/pacode-acp/src/session.rs:954-1102 | against such a daemon the replay fails only on an unordered snapshot or because its last send failed |
| `HistoryReplayAnswers.SentExactly` | crates/pacode-acp/src/session.rs:937-952 | of ordered items exactly those of the main agent are sent, each once |
| `HistoryReplayAnswers.BytesReach` | crates/pacode-acp/src/session.rs:1025-1026 | the bytes that count against the bound are those of the items the walk has passed |
| `HistoryReplayAnswers.WholeHistorySent` | crates/pacode-acp/src/session.rs:954-1102 | against a truthful daemon a history of less than 4 MiB read in fewer than 32 pages is replayed whole |

## Left out

- Sockets, tokio tasks, timeouts, JSON encoding: a lock region or a step between two suspension points is one atomic step; event sizes are an abstract function with `size(merge(a, b)) <= size(a) + size(b)`.
- File writes: each write of the migration is atomic; permissions and partial writes are not part of the model.
- `take_migration_notice`, environment overrides and the deprecated-key rewrites of the config: single-table edits that only add easy members.
- Text is a sequence of characters, not UTF-8 bytes, so that a suffix never splits a character.
- Epochs, generations and request ids are unbounded numbers; their 64-bit wrap-around is not modelled. Message seqs and token counts saturate as in the source.
- Live tool-call events are sent whether or not their item is retired, so "retired is silent" is claimed for text and replay only; notice texts, image items, plans and the ACP enum mappings are single-value translations.
- Compaction is modelled by what it leaves of the history; the pipeline that chooses the summary and the rewritten rows is a parameter.
- `History::restore_rows` is used by tests only; `recompute_token_estimate` and the refresh from reported usage are not modelled.
- `discard_injections`, `take_due` and `restore_due` are not part of this model.
- Transcript projection in `load_older_history` is an arbitrary table from message windows to items; the product of rows and budget in its shrink step is unbounded instead of 64-bit.
- `PendingRequestGuard` is modelled by its effect on the lifecycle (`ClearUnacknowledgedAttachState`); the pending maps themselves are not.
- EventQueueObject.EventQueue.ForceTerminal: the number of turns its loop may take is a parameter, because the loop of the source does not end for an event above the byte limit (`EventQueueRuns.OversizedNeverFits`).
- EventQueueObject.EventQueue.Push: assumes that a merged delta is no larger than its two parts, as `EventQueueRuns.JsonLikeIsSubadditive` shows for JSON-like sizes.
- MappingRuns.ExactlyOnce: that a complete text is final is claimed for runs in which no snapshot re-opens a completed item; `MappingRuns.FaithfulRuns` covers all runs.
- LifecycleObject.LifecycleState.BeginAttach: assumes, like `RetryAttach` and `RenewAttachRequestId`, a request id that no earlier step used; the shared counter gives each id out once, in whatever order the tasks then take the lock.
- CancelFence.NextInv: the session is a transition system over tasks rather than a class, because its steps interleave; the retry loops inside one send are repeated `Send` steps.
- HistoryReplay.Replayer.ReplayHistoryPages: a stale session is one of the daemon's possible error replies; an item's several updates count as one send.
- `run_prompt` around the event loop: the stop reported after a cancellation, the event pump's overflow flag and the preflight requests; the preflight's effect on the prompt state is an arbitrary sequence of inputs.
- The settings registry, auth store, session LRU, provider catalog, themes, logging and the reconnect supervisor.
