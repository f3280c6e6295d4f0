# Peridot: the tool-call protocol of the conversation log

Peridot is a coding agent. It keeps a log of a conversation in which the model issues tool
calls and the harness appends their results. The log is compacted, written to a snapshot,
forked, switched, resumed after an approval halt, and turned into a provider request by
rendering, merging, trimming and repairing. Through all of it one invariant has to hold: every
tool call is answered once, and every answer follows its call. A provider refuses a request that
breaks it.

This project models the parts of the repository that keep the invariant, and proves that they
do: for every log, every run of the agent against arbitrary providers, tools and policies, and
every history of turns, halts, resumptions, restarts, forks and switches. It then models the
other stateful parts of the harness: session router and message bus, undo checkpoints, review
guard, MCP block editor and slug normalisers, each with its central theorem.

`dafny verify dfyconfig.toml` checks the whole project.

## How the model is laid out

- `Protocol`: the protocol as an automaton over events (calls, one answer, anything else), with
  the set of open calls as its state. A log is balanced when the automaton accepts it and no call
  is left open; `BalancedMeansPaired` shows that this is exactly the pairing of calls and results
  by position.
- `Conversation`, `ContextLog`, `Compaction`, `Merge`, `Repair`, `Trim`, `Tokens`: the context
  manager. Loops over mutable lists are methods proved against functions; `RepairLaws`,
  `OrderedRepair`, `IdempotentRepair` and `UniqueCalls` hold what is proved about repair,
  `CompactionKeeps` what a compaction keeps by position, `CompactionLimits` where it falls short.
- `Turns`, `Sessions`, `Agent`, `Driver`, `RunEvents`: what a turn appends, the agent class, and
  the run loop with its stream of events. Provider, tools and policies are oracles. `TurnMeaning`
  says what a turn does field by field, without the functions that specify it.
- `Branching`, `Alignment`, `Histories`: forks and switches of the snapshot, how turn ids and
  calls have to line up for forks to be safe, and the theorem over whole histories.
- `Router`, `MessageBus` with `MessageEdges`, `Checkpoints` with `UndoOrder`, `ReviewGuard`,
  `McpBlocks` with `McpRescan`, `Slugs`: the other parts.

## Hypotheses

- Call ids: where a theorem needs that no id is issued twice, it says so (`UniqueIds`,
  `FreshFrom`, `NoIdTwice`). The file mock reuses ids
  (`crates/peridot-cli/src/providers.rs:281`), and `ReusedIdBreaksCompaction` shows that
  compaction can then break a balanced log.
- Only assistant entries carry calls, only tool entries answer one, and neither is pinned
  (`EntryShaped`). The harness builds its entries so.
- Turn ids are not assumed to be sorted: the summary of a compaction has turn id 0, and a restart
  begins counting anew.

## Where the code falls short

Each of these has its failing input and the exact condition under which the code does what is
expected.

- A result that stands before its call defeats repair: the call is kept and its result dropped
  (`EarlyResultStaysBroken`). Repair yields a balanced request exactly when the surviving calls
  are answered in time (`RepairBalancesIff`), and is idempotent exactly when no answered call has
  all its results before it (`RepairIdempotentIff`).
- Compaction with reused ids can drop a call and keep its result (`ReusedIdBreaksCompaction`).
  This happens exactly when a call is answered across the cut and its id is called again after
  that (`CompactionBreaksIff`), which is when a call is open at the cut (`CompactionBalanceIff`).
- A pinned user anchor is copied by compaction, once more each time (`PinnedTwiceAndThrice`).
  The pinned entries stay as they are exactly when the anchor is not pinned
  (`CompactionKeepsPinned`).
- Within one clock tick checkpoint 10 sorts before checkpoint 9, and two undos then leave the
  first edit in place (`TickOfTenFails`). A whole history is undone exactly when in each file the
  edit with the least name found the initial content (`UndoRestoresIff`); on names alone, exactly
  when the first edit of each file has the least name of that file (`UndoWorksIff`).
- The edge of a message is checked before it is delivered, and may be gone by then
  (`EdgeMayBeGoneAtDelivery`); its inbox may be gone as well (`InboxMayBeGoneAtDelivery`).
  `DeliveryIff` says exactly when either still holds.
- Removing an MCP block from a file without a final line break can shorten another block, as an
  empty last line is lost (`LostLineShortensBlock`). The other blocks come through exactly under
  the condition of `RescanIff`.
- An approval stop need not leave anything to resume: a batch in which a call asks for approval
  ends with all its calls answered (`BatchApprovalHaltsNothing`). It leaves a call exactly when
  the last turn ran that call by itself (`ApprovalHaltsIff`, and over runs `RunUntilDone`). A tool
  of risk class read-only never asks for confirmation itself
  (`crates/peridot-tools/src/registry.rs:265-300`), so a batch gets there only through a blocking
  hook whose error text carries the approval phrase
  (`crates/peridot-tools/src/hooks.rs:111-119`).
- A call in the sidecar outlives a run. `RunUntilDone` leaves it untouched exactly for the inputs
  with no turn allowed or with cancellation before the first turn.

Two things to know that are not failures: `restore_entries` does not restore the turn counter, so
turn ids start anew in each run (`RestoreEntries`), which the theorems on histories allow for; and
reading a file back loses a carriage return at the end of a line (`ReadsBackIff`), which the block
scanner never sees.

## Model

| member | source | states |
|---|---|---|
| Protocol.BalancedMeansPaired | crates/peridot-context/src/lib.rs:1251-1283 | The automaton accepts a history with nothing left open exactly when every call has one later result before its id is used again, and every result follows the call it answers. |
| Protocol.NextAnswer | crates/peridot-context/src/lib.rs:1251-1283 | A call that is open and later closed was answered at some position, untouched before it. |
| Protocol.LastIssue | crates/peridot-core/src/agent.rs:2051-2067 | A call open at the end was issued at some position and not touched since. |
| Conversation.RenderKeepsEvents | crates/peridot-context/src/lib.rs:1123-1163 | Rendering entries as messages neither adds, drops nor reorders a call or a result, and only assistant messages carry calls. |
| Conversation.RenderRepresents | crates/peridot-context/src/lib.rs:1123-1163 | What every entry becomes, by fields: an assistant entry with calls keeps its own text and exactly its calls; one that answers a call becomes a tool message of that id with the shown text; any other is of the assistant role exactly when its source is the assistant, with the shown text, and its images exactly in the user role. |
| Conversation.FindLastAtOrBefore | crates/peridot-context/src/lib.rs:666-681 | The backward search returns the last entry of a turn up to the given one, or -1 when there is none. |
| Repair.CollectOutputIds | crates/peridot-context/src/lib.rs:1252-1255 | The ids of all results in the list. |
| Repair.RetainAnswered | crates/peridot-context/src/lib.rs:1257-1268 | Calls without a result anywhere are dropped from their messages, and then the assistant messages left without text and calls. |
| Repair.RetainClaimed | crates/peridot-context/src/lib.rs:1270-1282 | The in-place pass keeps exactly the messages that the claiming scan keeps. |
| Repair.RepairToolCallPairs | crates/peridot-context/src/lib.rs:1251-1283 | The three passes together compute the specification of repair used in all lemmas. |
| RepairLaws.ClaimsExactly | crates/peridot-context/src/lib.rs:1270-1282 | For every list, a result survives the last pass exactly when an earlier message issued its id and no result in between has used that call; everything else survives, in order. |
| RepairLaws.RepairedResultsHaveCalls | crates/peridot-context/src/lib.rs:1251-1283 | For every list, each result in the repaired list follows a kept call of its id that no kept result in between has used. |
| RepairLaws.RepairKeepsSpoken | crates/peridot-context/src/lib.rs:1251-1283 | For every list, the messages that are neither results nor without text and images stay, with role, text and images, in order. |
| RepairLaws.RepairBalancesIff | crates/peridot-context/src/lib.rs:1251-1283 | For every list, repair yields a balanced list if and only if, after the first two passes, each kept call is resolved by a later result before it is issued again. |
| RepairLaws.EarlyResultStaysBroken | crates/peridot-context/src/lib.rs:1251-1283 | A result before its call: repair keeps the call, drops the result, and leaves the list unbalanced. |
| RepairLaws.SecondRepairDropsIt | crates/peridot-context/src/lib.rs:1251-1283 | A second repair then drops that call as well, so repair is not idempotent there. |
| OrderedRepair.OrderedScans | crates/peridot-context/src/lib.rs:1251-1283 | When no call has all its results before it, the three passes equal one scan from the left that looks ahead for results. |
| OrderedRepair.RepairTwice | crates/peridot-context/src/lib.rs:1251-1283 | Under that condition repair is idempotent. |
| OrderedRepair.DropFirstSurvivor | crates/peridot-context/src/lib.rs:1199-1204 | Dropping the first message that survived repair, and repairing again, equals repairing the original list from just behind that message. |
| IdempotentRepair.RepairIdempotentIff | crates/peridot-context/src/lib.rs:1251-1283 | For every list built by rendering, repair is idempotent if and only if every answered call that is kept has a result after it. |
| UniqueCalls.UniqueIsInTime | crates/peridot-context/src/lib.rs:1251-1283 | With unique ids and no result before its call, repair always yields a balanced list. |
| UniqueCalls.RepairKeepsBalanced | crates/peridot-context/src/lib.rs:1251-1283 | Repair leaves a balanced list as it is, but for blank assistant messages. |
| UniqueCalls.NoBlankDropsNothing | crates/peridot-context/src/lib.rs:1264-1268 | Nothing is dropped as blank exactly when there is no blank assistant message; with the row above, repair is then the identity on balanced lists. |
| Trim.TrimToHardLimit | crates/peridot-context/src/lib.rs:1199-1204 | The trimming loop terminates on every list; its result fits the limit or has at most one message, and a list that fits is left as it is. |
| Trim.MessageTokensMeans | crates/peridot-context/src/lib.rs:1285-1290 | A list costs the sum of its messages, and a message the number of its bytes divided by four, rounded up. |
| Trim.TrimIsOneShot | crates/peridot-context/src/lib.rs:1123-1167 | For ordered lists, trimming message by message with a repair in each step equals one repair of a suffix: of the whole list if it fits, and otherwise of the longest proper suffix whose repair fits. |
| Trim.RepairShrinks | crates/peridot-context/src/lib.rs:1251-1290 | Repair adds neither messages nor tokens, so what fitted the limit still does. |
| Merge.MergeConsecutiveRoles | crates/peridot-context/src/lib.rs:1175-1197 | The in-place merge computes the fold used in the lemmas below. |
| Merge.MergeJoinsMaximalRuns | crates/peridot-context/src/lib.rs:1175-1197 | The list splits into maximal runs of plain messages of one role and single carriers, and each merged message is the separator-join of one run. |
| Merge.RunBecomes | crates/peridot-context/src/lib.rs:1175-1197 | A run of several messages becomes one of its role, with the texts in order and a blank line between them, and nothing else; a single message stays as it is. |
| Merge.MergeLeavesNothing | crates/peridot-context/src/lib.rs:1175-1197 | No two adjacent plain messages of one role are left. |
| Merge.MergeTwice | crates/peridot-context/src/lib.rs:1175-1197 | Merging is idempotent. |
| Merge.MergeKeepsCarriers | crates/peridot-context/src/lib.rs:1175-1190 | Messages with calls, a result or images are kept unchanged, in order. |
| Merge.MergeKeepsToolEvents | crates/peridot-context/src/lib.rs:1175-1197 | Merging keeps the sequence of calls and results, so it cannot change balance. |
| Tokens.EstimateWordTokens | crates/peridot-context/src/lib.rs:481-516 | The loop over the characters of a word computes its cost: CJK characters, one for punctuation, a quarter per other character, one more for long compounds, at least one. |
| Tokens.WordCostMeans | crates/peridot-context/src/lib.rs:481-516 | The cost of a word by the positions of its characters: one for each CJK character, one for all punctuation, one for every four of the others or part of four, one more for a long identifier, and never none. |
| Tokens.EstimateTokensForText | crates/peridot-context/src/lib.rs:467-479 | The estimate is the cost of the words plus one token for 16 whitespace characters. |
| Tokens.EstimateJoin | crates/peridot-context/src/lib.rs:467-479 | Joining two texts with one whitespace character costs the sum of both, plus one exactly when the spare whitespace of both fills a block. |
| Tokens.EstimateMergeJoin | crates/peridot-context/src/lib.rs:1190-1191 | Joining with the separator of merged messages costs the sum plus 0, 1 or 2, with the exact condition for each. |
| Tokens.EstimateCoversWords | crates/peridot-context/src/lib.rs:467-516 | The estimate is never below the number of words. |
| Tokens.EstimateWord | crates/peridot-context/src/lib.rs:467-479 | A text that is one word costs what the word costs; with `EstimateJoin` and the next row this says what every text costs. |
| Tokens.EstimateBlank | crates/peridot-context/src/lib.rs:474-478 | A text of whitespace costs one token for every 16 characters. |
| Compaction.EarliestOrphanCall | crates/peridot-context/src/lib.rs:1213-1249 | One pass of the fixpoint: the earliest call before the cut that a kept result needs; any cut between that call and the present one is unsafe. |
| Compaction.ProtocolSafeKeepFrom | crates/peridot-context/src/lib.rs:1206-1249 | For every log, the loop terminates at the greatest index not above the requested one from which no kept result has its call only in the dropped part. |
| Compaction.CompactionKeepsProtocol | crates/peridot-context/src/lib.rs:921-967 | Whatever the summary, compacting a log with unique ids keeps the protocol and the uniqueness of ids, and leaves open no call that was not open before. |
| Compaction.CompactionKeepsBalance | crates/peridot-context/src/lib.rs:921-949 | A balanced log with unique ids compacts to a balanced log; the same holds for the model's recap, as the two paths differ only in the summary. |
| Compaction.CompactionKeepsTail | crates/peridot-context/src/lib.rs:921-949 | Every entry from the cut on is kept verbatim, at the end, and these are at least the last six. |
| Compaction.CompactionKeepsPinned | crates/peridot-context/src/lib.rs:921-967 | The pinned entries of the compacted log are those of the old one plus the pinned anchor; they are unchanged if and only if the anchor is not pinned. |
| CompactionKeeps.CompactedByPosition | crates/peridot-context/src/lib.rs:921-967 | The compacted log by positions: the pinned entries of the older part in order; then the user entry at the greatest index with a substantive task, or if there is none at the greatest index of any user entry, and none exactly when the older part has none; then the summary; then the newer part. |
| CompactionKeeps.PinnedByPosition | crates/peridot-context/src/lib.rs:929-937 | The pinned entries kept are those at exactly the indices of pinned entries, in increasing order. |
| Compaction.CompactionBalanceIff | crates/peridot-context/src/lib.rs:921-949 | Without any assumption on ids, a balanced log compacts to a balanced log if and only if no call is open at the cut. |
| Compaction.ReusedIdBreaksCompaction | crates/peridot-cli/src/providers.rs:281 | A balanced log of two rounds with the same id that compaction leaves unbalanced. |
| CompactionLimits.CompactionBreaksIff | crates/peridot-context/src/lib.rs:1206-1249 | A balanced log compacts to an unbalanced one if and only if a call is answered across the cut and its id is called again after that. |
| CompactionLimits.PinnedAnchorGrows | crates/peridot-context/src/lib.rs:921-967 | A pinned task that is the anchor is copied by compaction, one more time whatever the number of its copies. |
| CompactionLimits.PinnedTwiceAndThrice | crates/peridot-context/src/lib.rs:921-967 | A log with one pinned entry has two after one compaction and three after the next. |
| ContextLog.RequestFits | crates/peridot-context/src/lib.rs:1123-1167 | Whatever the log, the request fits the hard limit or is a single message. |
| ContextLog.RequestIsBalanced | crates/peridot-context/src/lib.rs:1123-1167 | For every log with unique ids that keeps the protocol, even with a call open, the request is one repair of a suffix of the merged log, and balanced. |
| ContextLog.BalancedLogIsSentWhole | crates/peridot-context/src/lib.rs:1123-1167 | A balanced log that fits is sent whole, but for blank assistant messages. |
| ContextLog.PreparedRepresents | crates/peridot-context/src/lib.rs:1123-1167 | A balanced log that fits, with no two text entries of one role side by side and no blank assistant text, is sent entry by entry, each as `RenderRepresents` says. |
| ContextLog.StampMeans | crates/peridot-context/src/lib.rs:683-692 | Stamping fills in a missing turn id and branch, keeps those an entry has, and changes nothing else. |
| ContextLog.TotalTokensMeans | crates/peridot-context/src/lib.rs:897-903 | The estimate of a log is the sum of the estimates of its entries. |
| ContextLog.ThresholdMeans | crates/peridot-context/src/lib.rs:1092-1098 | Without a model window the configured threshold; with one, its configured share, held between a tenth and ninety-nine hundredths, rounded down. |
| ContextLog.ContextManager.constructor | crates/peridot-context/src/lib.rs:629-640 | A new manager has an empty log, turn 0 and no branch. |
| ContextLog.ContextManager.BumpTurnId | crates/peridot-context/src/lib.rs:648-651 | The turn id goes up by one and saturates at the largest 64-bit number. |
| ContextLog.ContextManager.Append | crates/peridot-context/src/lib.rs:683-692 | The entry goes to the end, stamped with the turn id and branch unless it carries its own; the rest is unchanged. |
| ContextLog.ContextManager.RestoreEntries | crates/peridot-context/src/lib.rs:873-876 | The log is replaced and nothing else: not the turn counter, not the branch. |
| ContextLog.ContextManager.BranchFrom | crates/peridot-context/src/lib.rs:666-681 | None and no change exactly when no entry carries the turn id; otherwise kept and dropped entries make up the old log, the kept ones end at that turn or before, and all dropped ones are later. |
| ContextLog.ContextManager.EstimatedTokens | crates/peridot-context/src/lib.rs:897-903 | The sum of the estimates of all entries. |
| ContextLog.ContextManager.Compact | crates/peridot-context/src/lib.rs:921-949 | The list surgery computes the compacted log of the lemmas, and the result is described by positions as in `CompactedByPosition`. |
| ContextLog.ContextManager.CompactIfNeeded | crates/peridot-context/src/lib.rs:911-919 | Compacts exactly when the estimate exceeds the threshold and the log has more than the kept tail; otherwise nothing changes. |
| ContextLog.ContextManager.CompactWithLlm | crates/peridot-context/src/lib.rs:982-1088 | Compacts exactly when the provider gave a recap, the log is longer than the tail, and it is forced or over the threshold. |
| ContextLog.ContextManager.ToMessages | crates/peridot-context/src/lib.rs:1123-1167 | Render, merge, trim, repair, in this order; a log that needs none of the last three is sent entry by entry, with role, text, calls and images of each. |
| Turns.TurnTailKeepsProtocol | crates/peridot-core/src/agent.rs:809-1160 | Whichever way a turn goes (chat reply, one tool, failure, read-only batch failing at any index), what it appends answers every call it records, except for the one call of an approval halt. |
| TurnMeaning.TurnTailMeans | crates/peridot-core/src/agent.rs:809-1160 | What a turn appends, by fields: a reply unless it is blank; for two or more reads all calls in one entry and one result for each, its own while all before it ran and not executed after that; otherwise the first call alone, answered unless it waits for approval. |
| TurnMeaning.BatchableMeans | crates/peridot-core/src/agent.rs:641-649 | A batch is two calls or more, all of read-only tools and none of them `agent_done`. |
| Turns.LatestUnansweredToolCallId | crates/peridot-core/src/agent.rs:2051-2067 | The backward loop computes the search used in the lemma below. |
| Turns.UnansweredIsOpen | crates/peridot-core/src/agent.rs:2051-2067 | On a log that keeps the protocol, the search finds exactly the first call of the latest calling entry that is still open. |
| Turns.ResumeCloses | crates/peridot-core/src/agent.rs:2028-2049 | Resuming closes that call and no other, or appends a reminder that leaves the protocol alone. |
| Sessions.CompactionKept | crates/peridot-core/src/agent.rs:680-740 | Compaction at the start of a turn, forced or not, by recap or summary, keeps the log's invariant. |
| Sessions.AnswerKept | crates/peridot-core/src/agent.rs:809-1160 | The model's answer with fresh ids keeps the invariant and opens a call exactly when the turn halts. |
| Sessions.TurnKeepsLog | crates/peridot-core/src/agent.rs:651-1160 | A whole turn, from the user's words to the last result, keeps the invariant; it leaves one more call open if and only if it halts, and that is then the one call of the latest calling entry. |
| TurnMeaning.TurnLogMeans | crates/peridot-core/src/agent.rs:651-1160 | A turn by its parts, without the functions it is specified by: the user's words and the plan go on the log; it is compacted exactly when longer than six entries and over the threshold or forced with a recap, with the recap if there is one; the answer is recorded unless the hook or the provider fails. |
| TurnMeaning.TurnAddsTask | crates/peridot-core/src/agent.rs:668-678 | A turn without a compaction adds to the user's words on the log the task, in the first iteration, and nothing in any other. |
| Sessions.ResumeKeepsLog | crates/peridot-core/src/agent.rs:2028-2049 | A resumption keeps the invariant, and ends a pause with a balanced log. |
| Agent.ApprovalHaltsIff | crates/peridot-core/src/agent.rs:1005-1100 | A halting turn returns the approval error; a turn that returns it halts, and leaves a call to be resumed, if and only if that call was run by itself, not in a batch and not as the chat reply. |
| Agent.AnswerResultMeans | crates/peridot-core/src/agent.rs:893-1184 | The outcome of an answered turn: done exactly when the answer has no calls, or is no batch and its first call is `agent_done` and succeeded; it names the tool run, succeeds with that call or with all calls of the batch, and fails with the first call that fails, for want of approval exactly when that call asks for it. |
| Agent.TurnReturnMeans | crates/peridot-core/src/agent.rs:651-1184 | A turn sends one request, of its log as compacted, unless the hook fails, and returns what the answer means, or an error when there is none. |
| Agent.BatchApprovalHaltsNothing | crates/peridot-core/src/agent.rs:845-892 | Two reads, the first refused for want of approval: the approval error is returned, both calls are answered, and nothing is left to be resumed. |
| Agent.TurnAccounts | crates/peridot-core/src/agent.rs:809-1160 | With a sidecar path, after any turn a call is open only while the sidecar holds it. |
| Agent.HarnessAgent.constructor | crates/peridot-core/src/agent.rs:257-285 | An agent over any log that keeps the protocol, new or restored, satisfies the invariant when an open call is held by the sidecar. |
| Agent.HarnessAgent.TransitionPhase | crates/peridot-core/src/agent.rs:1817-1840 | The phase changes, and an event is emitted exactly when it differs. |
| Agent.HarnessAgent.AppendNoteEntry | crates/peridot-core/src/agent.rs:1325-1335 | A reminder goes to the end of the log and changes neither the open calls nor the latest calling entry. |
| Agent.HarnessAgent.RunBatch | crates/peridot-core/src/agent.rs:809-950 | Runs a batch up to the first failure, answers the failing call with the failure and the rest as not executed, and passes the error on. |
| Agent.HarnessAgent.AppendNotExecuted | crates/peridot-core/src/agent.rs:868-891 | Every remaining call of a failed batch is answered, in order. |
| Agent.HarnessAgent.RecordBatch | crates/peridot-core/src/agent.rs:809-950 | The assistant entry with all calls, and then their results. |
| Agent.HarnessAgent.RecordSingle | crates/peridot-core/src/agent.rs:964-1160 | Chat reply, single tool, failure and approval halt: what is appended, which turn is done and with what success, and that the sidecar is written exactly on a halt. |
| Agent.HarnessAgent.PrepareTurn | crates/peridot-core/src/agent.rs:665-733 | New turn id, the user's words, compaction by the model or else by the deterministic summary, and its report with the estimates before and after. |
| Agent.HarnessAgent.CompactForTurn | crates/peridot-core/src/agent.rs:681-740 | The model's recap first, the summary when there is none; compacts exactly when the log is longer than six entries and over the threshold or forced with a recap, and gives the log of `CompactedByPosition`. |
| Agent.HarnessAgent.SendRequest | crates/peridot-context/src/lib.rs:1123-1167 | Every request sent from a log that keeps the invariant is made of that log, balanced and fits. |
| Agent.HarnessAgent.RecordAnswer | crates/peridot-core/src/agent.rs:809-1160 | Batch or single call, decided as the harness does; the result says what `AnswerResultMeans` says. |
| Agent.HarnessAgent.RecordTurn | crates/peridot-core/src/agent.rs:651-1160 | The log, result and sidecar after a turn, against the specification functions, with the invariant kept. |
| Agent.HarnessAgent.RunTurn | crates/peridot-core/src/agent.rs:651-1184 | A turn keeps the agent's invariant and the order of its events. Its log is described part by part, from the user's words over the compaction to the answer; it sends one request, of the log as compacted, and reports a compaction exactly when one ran and its hook passed. Which turn is done, which tool it names and when it succeeds are stated outright; its phase is done exactly when its outcome is; the sidecar holds exactly the first call of an approval halt. |
| Agent.HarnessAgent.ResumePending | crates/peridot-core/src/loop_policy/pending_resume.rs:46-122 | Takes the call from the sidecar, closes the call it was halted on, notes a failure, and leaves the log balanced. |
| Agent.ResumedMeans | crates/peridot-core/src/loop_policy/pending_resume.rs:46-122 | What a resumption appends, by fields: the observation of the held call under the id of the open call, or the reminder that it was approved; and a note when it failed. |
| Agent.HarnessAgent.CloseHeld | crates/peridot-core/src/agent.rs:2028-2049 | Appends the result of the call that the log was paused on, or a reminder; a paused log is balanced after it. |
| RunEvents.OrderlyMeans | crates/peridot-core/src/agent.rs:1320-1651 | In an orderly stream turn indices strictly increase below the bound and nothing is finished yet. |
| RunEvents.EndsAfterStart | crates/peridot-core/src/agent.rs:1398-1504 | A turn that ends is the last one that started. |
| RunEvents.FinishedOnce | crates/peridot-core/src/agent.rs:80-100 | A stream of a run that finished shows Finished at its last position and nowhere else. |
| Driver.Remind | crates/peridot-core/src/agent.rs:1320-1336 | The reminders go to the end of the log, in order, and the invariant holds. |
| Driver.Consult | crates/peridot-core/src/agent.rs:1375-1397 | A dispatch of policies appends exactly its reminders, moves the phase and adds its cost, and keeps the invariant and the order of events. |
| Driver.OpenIteration | crates/peridot-core/src/agent.rs:1354-1374 | A changed AGENTS.md is noted, and in the first iteration a held call is taken up, shown and resumed. |
| Driver.MeetIteration | crates/peridot-core/src/agent.rs:1320-1397 | The exact entries an iteration appends before its turn, in order, the cost of its policies, and that a held call is kept exactly when the iteration is cancelled. |
| Driver.OpeningMeans | crates/peridot-core/src/agent.rs:1320-1397 | Those entries by their texts: the messages of peers, AGENTS.md when it has changed, the resumption of a held call in the first iteration, and the reminders of the policies; after a cancellation only the first. |
| Driver.BeginIteration | crates/peridot-core/src/agent.rs:1336-1397 | The turn is run exactly when nothing cancels it and the policies continue, left out exactly when they skip it or ask for a retry, and the run ends otherwise, for the reason given; nothing of the user goes on the log before it; a held call is kept exactly when the iteration is cancelled. |
| Driver.HandleError | crates/peridot-core/src/agent.rs:1420-1492 | An approval error always ends the run as such; any other ends it as interrupted when it is cancelled, and else the verdict of the policies decides, case by case. |
| Driver.ReportTurn | crates/peridot-core/src/agent.rs:1494-1535 | The turn's end is shown once, its cost and that of the policies added. |
| Driver.HandleUndone | crates/peridot-core/src/agent.rs:1624-1644 | A turn that is not done ends the run exactly when a positive budget is used up. |
| Driver.HandleDone | crates/peridot-core/src/agent.rs:1565-1622 | A done turn ends the run as done exactly when the policies continue; every other verdict has its own way on. |
| Driver.HandleOutcome | crates/peridot-core/src/agent.rs:1494-1644 | The outcome is kept unless the policies fail; the exact conditions for stopping as done and for stopping on the budget. |
| Driver.ConcludeTurn | crates/peridot-core/src/agent.rs:1565-1644 | When the policies let an outcome stand: a done turn ends the run unless the policies of a done turn say otherwise, and an undone one exactly when a positive budget is used up. |
| Driver.TakeTurn | crates/peridot-core/src/agent.rs:1398-1413 | The task is the first thing that the turn of the first iteration puts on the log before it is compacted, and no other turn puts words of the user there; the rest of the turn, with the request it sends, follows part by part. Its outcome is what the answer means. |
| Driver.RunOneTurn | crates/peridot-core/src/agent.rs:1397-1644 | The same for a turn with all that follows it, which adds only notes; its way out is justified, and the outcome kept and the cost are those of how it ended. |
| Driver.RunIteration | crates/peridot-core/src/agent.rs:1320-1644 | One iteration keeps the invariants of log, events and outcomes, and every stop is justified. A turn is started exactly when nothing cancels it and the policies continue; then the log is the old one with notes, that turn with the task in the first iteration, and notes. Requests, outcomes and cost grow by exactly those of the iteration. |
| Driver.RunUntilDone | crates/peridot-core/src/agent.rs:1197-1651 | For every oracle: the log keeps the protocol, every request was balanced and within the limit, turn indices increase below the maximum, phase changes link up, Finished is emitted last, the summary holds the turns whose end was shown, which are the outcomes of the iterations one by one, and the sum of what these cost. If no compaction ran, the user's words on the log are those from before and, if the first turn started, the task. Every stop is justified: Done by an answer that ends the work and that no policy vetoed, Budget by the cost, Interrupted by something that asked for it, ApprovalRequired by a call that did, MaxTurns by iterations that were all entered. A call held before the run is left untouched if and only if no turn is allowed or the run is cancelled before the first; after any other run a call is held only after an approval stop, and then if and only if the last turn ran it by itself. |
| Branching.SessionFiles.Record | crates/peridot-context/src/lib.rs:383-394 | A limb goes to the end of the journal. |
| Branching.SessionFiles.TakeLimb | crates/peridot-context/src/lib.rs:413-420 | The limb at the index is removed and returned, or nothing changes when there is none. |
| Branching.ForkMeans | crates/peridot-cli/src/tui_branch.rs:42-59 | A fork is possible exactly when some entry is of a turn up to the given one; the part that stays ends with the last such entry, and the rest, unless empty, becomes the newest limb of that turn. |
| Branching.SwitchMeans | crates/peridot-cli/src/tui_branch.rs:108-145 | A switch is possible exactly when the limb exists and some entry is of a turn up to its fork point; the path is cut there and goes on with the limb, which leaves the journal, and what was cut off, unless empty, becomes the newest limb. |
| Branching.SessionFiles.HandleBranchTurn | crates/peridot-cli/src/tui_branch.rs:17-70 | Succeeds exactly when some entry is of a turn up to the given one, with the effect described in `ForkMeans`; a refusal changes nothing. |
| Branching.SessionFiles.HandleBranchSwitch | crates/peridot-cli/src/tui_branch.rs:95-163 | Succeeds exactly when the limb exists and its fork point is in the snapshot, with the effect described in `SwitchMeans`; a refusal puts the limb back where it was. |
| Branching.ForkConserves | crates/peridot-cli/src/tui_branch.rs:42-59 | A fork keeps the multiset of all entries. |
| Branching.SwitchConserves | crates/peridot-cli/src/tui_branch.rs:108-145 | A switch keeps the multiset of all entries. |
| Branching.EveryEntryIsSomewhere | crates/peridot-cli/src/tui_branch.rs:42-145 | Over every sequence of forks, switches and appends, the snapshot and the limbs together hold exactly what was there and what was appended, with multiplicity; every limb stays non-empty with all its turns after its fork point. |
| Branching.ForkThenSwitchBack | crates/peridot-cli/src/tui_branch.rs:42-145 | Fork, go on with later entries, switch to the recorded limb: the original log is back exactly, and the new entries are a limb of the same fork point. |
| Branching.SwitchTwice | crates/peridot-cli/src/tui_branch.rs:108-145 | A switch that records a tail is undone by switching to that tail, with the journal rotated. |
| Branching.SwitchThenFork | crates/peridot-cli/src/tui_branch.rs:42-145 | A switch from a path that ends at the fork point is undone by forking there. |
| Alignment.ForksAreSafeIff | crates/peridot-core/src/agent.rs:660-664 | A balanced log can be forked at every turn without parting a call from its result if and only if no call is open at any point from which on all turn ids are later. |
| Alignment.AlignedForkSplitsNoPair | crates/peridot-cli/src/tui_branch.rs:42-44 | Then, whatever the turn id given, both parts are balanced. |
| Alignment.AlignedPrefix | crates/peridot-cli/src/tui_branch.rs:53-54 | The kept part of a fork can be forked again. |
| Alignment.AlignedSuffix | crates/peridot-cli/src/tui_branch.rs:54-59 | So can the part dropped into a limb. |
| Alignment.AlignedConcat | crates/peridot-cli/src/tui_branch.rs:143-145 | So can the path that a switch puts together. |
| Alignment.CompactionKeepsAligned | crates/peridot-context/src/lib.rs:921-949 | Compaction, whose summary carries turn id 0, keeps forks safe. |
| Alignment.TurnKeepsAligned | crates/peridot-core/src/agent.rs:651-1160 | Every turn keeps forks safe, and a call it halts on is of the current turn. |
| Histories.ResumeIsKept | crates/peridot-core/src/loop_policy/pending_resume.rs:46-122 | A resumption, in the same agent or after a restart from the snapshot, keeps the invariant and leaves the log balanced. |
| Histories.ForkIsKept | crates/peridot-cli/src/tui_branch.rs:17-70 | A fork at any turn leaves a snapshot and limbs that are each balanced, with disjoint call ids. |
| Histories.SwitchIsKept | crates/peridot-cli/src/tui_branch.rs:95-163 | So does a switch to any limb. |
| Histories.NotedIsKept | crates/peridot-cli/src/main.rs:1996-2005 | A reminder written straight to the snapshot, of turn 0, keeps the files balanced and forkable. |
| Histories.EveryHistoryIsBalanced | crates/peridot-core/src/agent.rs:1197-1651 | Over every history of turns, notes, halts, resumptions, restarts, reminders written to the snapshot, forks and switches in which no id is issued twice: the log is balanced or paused with its one open call in the sidecar, the snapshot and every limb are balanced, and a fork of the snapshot at any turn parts no call from its result. |
| Histories.EveryRequestIsBalanced | crates/peridot-context/src/lib.rs:1123-1167 | The request built at any point of any such history is balanced and fits. |
| Histories.ResumeEndsThePause | crates/peridot-core/src/agent.rs:2028-2049 | At any point of any such history, resuming leaves the log balanced. |
| Router.WithoutKeepsOrder | crates/peridot-cli/src/session_router.rs:159-166 | Removing an id keeps the order free of duplicates and shortens it by one exactly when the id was there. |
| Router.WithoutCuts | crates/peridot-cli/src/session_router.rs:159-166 | What is left are the ids before it and those after it, in their order. |
| Router.SessionRouter.constructor | crates/peridot-cli/src/session_router.rs:154-156 | An empty router satisfies the invariant. |
| Router.SessionRouter.Register | crates/peridot-cli/src/session_router.rs:159-167 | The session is last in the order, once, and becomes the foreground exactly when there was none; the invariant holds that the order lists exactly the sessions, once each, and the foreground is absent exactly when the router is empty and registered otherwise. |
| Router.SessionRouter.SwitchTo | crates/peridot-cli/src/session_router.rs:200-208 | Succeeds exactly for a registered session. |
| Router.SessionRouter.CycleForeground | crates/peridot-cli/src/session_router.rs:211-227 | The next session in the order, the first after the last, becomes the foreground. |
| Router.SessionRouter.Close | crates/peridot-cli/src/session_router.rs:230-240 | The session is gone from map and order; the foreground moves only when it was the closed one. |
| Router.CycledIndex | crates/peridot-cli/src/session_router.rs:211-227 | Cycling a number of times goes as many places on in the order, around its end. |
| Router.CycleReturns | crates/peridot-cli/src/session_router.rs:211-227 | Cycling as often as there are sessions returns to the start. |
| Router.CycleReaches | crates/peridot-cli/src/session_router.rs:211-227 | Every session is reached within that. |
| Router.CycleVisitsOnce | crates/peridot-cli/src/session_router.rs:211-227 | No session is visited twice within that. |
| MessageBus.NothingLostOrReordered | crates/peridot-cli/src/session_router.rs:294-386 | Over every interleaving of the lock-by-lock steps of all sends and drains, and for each inbox, what was drained followed by what is queued is exactly what was pushed, in the order of the pushes. |
| MessageBus.EachSendPushesOnce | crates/peridot-cli/src/session_router.rs:294-311 | Every push belongs to a send of its own, so none delivers twice. |
| MessageEdges.InboxesApart | crates/peridot-cli/src/session_router.rs:159-167 | No two sessions share an inbox, after any sequence of steps. |
| MessageEdges.DrainTakesOwn | crates/peridot-cli/src/session_router.rs:371-386 | A drain gives out the whole queue of the inbox that its own session had when it asked, and touches no other. |
| MessageEdges.DeliveredAcrossEdges | crates/peridot-cli/src/session_router.rs:319-369 | Every pushed message was checked by its own send, at a step where the edge held in the direction of that send, and went to the inbox that the receiver had at its own later lookup. |
| MessageEdges.DeliveryIff | crates/peridot-cli/src/session_router.rs:294-369 | For every pushed message: its edge still holds at the push if and only if the steps since the check leave that child with that parent, and its inbox is still the one of the receiver if and only if no step since the lookup closes or registers the receiver. |
| MessageEdges.EdgeMayBeGoneAtDelivery | crates/peridot-cli/src/session_router.rs:343-369 | A run from the empty bus in which the edge is gone when the message is pushed. |
| MessageEdges.InboxMayBeGoneAtDelivery | crates/peridot-cli/src/session_router.rs:294-311 | A run from the empty bus in which the message is pushed to an inbox that no session has any more. |
| Checkpoints.BeforeTotal | crates/peridot-cli/src/checkpoints.rs:9-30 | The order of file names used for sorting is total and irreflexive. |
| Checkpoints.Workspace.WriteFileCheckpoint | crates/peridot-core/src/checkpoint.rs:40-102 | A checkpoint is written exactly for the two file tools with a path; it holds the previous content, or its absence, under a name from clock, sequence number and tool. |
| Checkpoints.Workspace.RunFileTool | crates/peridot-core/src/checkpoint.rs:40-102 | A checkpointed edit of a file, as the histories below are made of: the file has the new content or is gone, and no other changes. |
| Checkpoints.Workspace.LatestCheckpoint | crates/peridot-cli/src/checkpoints.rs:9-30 | The greatest name among the checkpoints, or none when there is none. |
| Checkpoints.Workspace.RestoreLatest | crates/peridot-cli/src/checkpoints.rs:9-56 | The file of the latest checkpoint gets its old content back or is removed again, the checkpoint is consumed, and nothing else changes. |
| Checkpoints.RestoreUndoesEdit | crates/peridot-cli/src/checkpoints.rs:9-56 | Restoring right after an edit whose name is the newest restores files and checkpoints exactly. |
| Checkpoints.UndoInvertsHistory | crates/peridot-cli/src/checkpoints.rs:9-56 | For every history whose names sort in order of creation, as many restores as edits lead to the initial project and nowhere else, including files that did not exist. |
| Checkpoints.NameOrder | crates/peridot-core/src/checkpoint.rs:64-69 | Names sort in order of creation when clock values of equal width increase. |
| Checkpoints.AdvancingClockUndoes | crates/peridot-core/src/checkpoint.rs:40-102 | So every history under an advancing clock is undone exactly. |
| Checkpoints.TenSortsBeforeNine | crates/peridot-core/src/checkpoint.rs:64-69 | Within one clock tick, sequence number 10 sorts before 9. |
| UndoOrder.UndoLeaves | crates/peridot-cli/src/checkpoints.rs:9-56 | For every history with distinct new names, in whatever order they sort: after as many undos, each edited file holds what the edit with the least name found there, and everything else is as it was. |
| UndoOrder.UndoRestoresIff | crates/peridot-cli/src/checkpoints.rs:9-56 | For every such history, the project is restored if and only if in each edited file the edit with the least name found the initial content. |
| UndoOrder.UndoWorksIff | crates/peridot-cli/src/checkpoints.rs:9-56 | For the names of a history, undo works whatever is written if and only if the first edit of each file has the least name of that file. |
| UndoOrder.TwoUndosRestoreIff | crates/peridot-cli/src/checkpoints.rs:9-56 | Two edits are undone by two restores if and only if they are of different files, or their names sort in order, or the first changed nothing. |
| UndoOrder.WrongOrderLeavesFirstEdit | crates/peridot-cli/src/checkpoints.rs:9-56 | Two edits of one file whose names sort the wrong way: two undos leave exactly what the first edit wrote. |
| UndoOrder.TickOfTenFails | crates/peridot-core/src/checkpoint.rs:64-69 | Checkpoints 9 and 10 of one clock tick, of one file that the first changed: two undos do not restore the project. |
| ReviewGuard.GuardedReviewerVerdict | crates/peridot-cli/src/run_loop.rs:1082-1119 | A request for changes goes through exactly while one more leaves both the count of its diff and the streak below the limit, and becomes a block otherwise; an approval resets the streak and keeps the counts. |
| ReviewGuard.Guard | crates/peridot-cli/src/run_loop.rs:768-860 | One guarded pass keeps the bounds; the verdict is the reviewer's own but for a request for changes without room, which becomes a block. |
| ReviewGuard.ReviewTurn | crates/peridot-cli/src/run_loop.rs:807-931 | A turn stops the run if and only if it calls for review, there is a diff and a verdict, the verdict is a block or a request for changes without room, and the operator does not override; then as interrupted. What it shows is stated event by event, and the bounds hold. |
| ReviewGuard.ActOn | crates/peridot-cli/src/run_loop.rs:862-907 | An approval resets the streak, a block is overridden or accepted as the operator says, and an accepted one stops the run. |
| ReviewGuard.CommitteeTurn | crates/peridot-cli/src/run_loop.rs:768-931 | One iteration: its events in order; unless a block was accepted, it stops for an error, a done turn or a used-up budget, in this order, and goes on otherwise. |
| ReviewGuard.RunCommittee | crates/peridot-cli/src/run_loop.rs:724-931 | For every oracle, the bounds hold at every moment of the run, Finished is last, an accepted block means that the run was interrupted, and the run stops at the first turn that gives a reason to, with that reason. Every event follows from the turn it is about: a turn is reviewed exactly when it calls for it, and every block is followed directly by its acceptance, or by a reset of the streak if the operator overrode it. |
| ReviewGuard.FewRequestsPass | crates/peridot-cli/src/run_loop.rs:1082-1119 | Up to every moment fewer requests than the limit pass for any one diff, across approvals and overrides, and in any streak. |
| ReviewGuard.NoTurnAfterBlock | crates/peridot-cli/src/run_loop.rs:768-931 | No turn starts after an accepted block. |
| McpBlocks.ScanBlocks | crates/peridot-cli/src/main.rs:2741-2766 | The loop over the lines, with its two pending variables, finds the blocks of the specification. |
| McpBlocks.KindMeans | crates/peridot-cli/src/main.rs:2746-2759 | What the scanner sees in a line, from its text: the mcp header, another header, or a name with the value that it gives. |
| McpBlocks.BlocksMean | crates/peridot-cli/src/main.rs:2741-2766 | The blocks are exactly the stretches of lines from an mcp header up to the next header or the end, each with the first name in it, in the order of the lines. |
| McpBlocks.RemoveMcpBlock | crates/peridot-cli/src/main.rs:2737-2775 | None exactly when no block has the name; otherwise the lines of the first such block are cut out and all others stay in order. |
| McpBlocks.FirstNamedMeans | crates/peridot-cli/src/main.rs:2767-2769 | The search finds the first block of the name, or there is none. |
| McpBlocks.RemovalKeepsOtherBlocks | crates/peridot-cli/src/main.rs:2770-2772 | Scanning the kept lines finds exactly the other blocks, the later ones moved up by the length of the removed one. |
| McpRescan.ReadsBackIff | crates/peridot-cli/src/main.rs:2770-2775 | The written text has the kept lines if and only if no line before a break ends in a carriage return and the text does not end in an empty line without one, nor is empty with one. |
| McpRescan.RescanIff | crates/peridot-cli/src/main.rs:2734-2775 | The written text has the blocks of the kept lines if and only if it ends in a line break, or its last line is not empty, or no block reaches that line. |
| McpRescan.RemovedFileHasOtherBlocks | crates/peridot-cli/src/main.rs:2734-2775 | For every file and name: the written file, read and scanned again, has the original blocks minus the first of that name, the later ones moved up, if and only if the condition above holds of the kept lines. |
| McpRescan.LostLineShortensBlock | crates/peridot-cli/src/main.rs:2770-2775 | A file of four lines for which it does not: the remaining block is read back one line shorter. |
| Slugs.CollapsedIsJoinedWords | crates/peridot-cli/src/run_state.rs:367-388 | Collapsing dashes character by character, as one normaliser does, equals splitting into words and joining them, as the other does, but for a dash at the end. |
| Slugs.SlugCharMeans | crates/peridot-agents/src/lib.rs:297-308 | What becomes of a character wherever it stands: lowercase letters and digits stay, capitals are lowered, a dash, an underscore or whitespace parts words, and every other character goes. |
| Slugs.LongSlugMeans | crates/peridot-agents/src/lib.rs:314-330 | A slug that would be longer than 48 characters is the first 35 of them without a dash at the end, a dash, and the hash of the id; any other is the joined words. |
| Slugs.SlugLands | crates/peridot-agents/src/lib.rs:297-330 | An id has a slug exactly when it has an ASCII letter or digit; the slug is of lowercase letters, digits and single inner dashes, and at most 48 long, hashed or not. |
| Slugs.SlugOfSlug | crates/peridot-agents/src/lib.rs:297-330 | A slug within the limit is its own slug. |
| Slugs.SlugTwice | crates/peridot-agents/src/lib.rs:297-330 | The normaliser is idempotent. |
| Slugs.WordsOfJoin | crates/peridot-agents/src/lib.rs:309-313 | Splitting undoes joining. |
| Slugs.SameSlugSameWords | crates/peridot-agents/src/lib.rs:297-330 | Two ids that need no hash get the same slug if and only if their words are the same. |
| Slugs.SlugifyForBranch | crates/peridot-cli/src/run_state.rs:367-388 | The loop with its flag and early exit computes the branch slug of the specification. |
| Slugs.BranchCharMeans | crates/peridot-cli/src/run_state.rs:367-388 | Of the lowercased task letters and digits stay, and every other character parts words. |
| Slugs.BranchSlugLands | crates/peridot-cli/src/run_state.rs:367-388 | The branch slug is in the language, at most 40 long, and is the words of the lowercased task joined and cut to the limit, or `task` when there are none. |
| Slugs.BranchSlugTwice | crates/peridot-cli/src/run_state.rs:367-388 | The normaliser is idempotent. |
| Slugs.SlugOfBranchSlug | crates/peridot-agents/src/lib.rs:297-330 | A branch slug is its own worktree slug. |

## Left out

- Providers, tools, hooks, policies, reviewers and operators: they are oracles that may answer anything. Policies appear only through the reminders, phase, cost and verdict of a dispatch; their own state is not modelled.
- Wording: how an entry is shown to the model (untrusted wrapper, evidence footer), observations, summaries, recaps and the text of reminders are parameters or abbreviated; so is the test for a substantive task.
- Messages of the system role, which are not built from the log, and what is done to a request after it is built: routing turns with images to a vision model, and taking images out for a text-only one (`crates/peridot-core/src/agent.rs:734-755`).
- `/rewind` and `/detach`, which drop entries of the snapshot, and the lookups of parent and child in the router other than those of the bus.
- Observation offload to files, the evidence ledger, the sub-agent mission packet, `unpin_where`, and the structured form of a recap.
- The snapshot file: `Histories` takes it as written after every turn that returns an outcome, and forks and switches as made between runs, each of which starts from the file. File system failures and JSON encoding are not modelled; nor is the creation time of limbs, and named branches.
- Events that carry text only (assistant deltas, tool started and finished, file diffs), of which only the line that reports a compaction is modelled, and the 50 ms polling for cancellation; a cancellation is asked for at the points where the loop looks.
- Cost and thresholds are real numbers, so the rounding of floating point is not captured.
- Hashes: the FNV hash of a slug and the digest of a diff are parameters.
- The committee loop's planner, its context entries and its run events other than those of `ReviewGuard.Event`; the loop is modelled for its counters and stop reasons.
- MessageBus: sessions are values in a state machine, and the locks of the source are its atomic steps; poisoned locks are not modelled.
- Slugs.SlugifyForBranch: Unicode lowercasing is a parameter, of which only what it does to ASCII is assumed.
- Checkpoints.Workspace.RunFileTool: the tool's own write is a given new content or removal; the check that a path lies within the project is not modelled.
- Checkpoints.Workspace.LatestCheckpoint: looks for the greatest name in one pass over the directory, where the source sorts the names and pops the last; the result is the same name.
- TUI, configuration, clap parsing, slash dispatch, session export, notes, skills, code map: I/O and formatting around the parts above.
