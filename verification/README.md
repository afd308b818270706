# Luna agent: a verified model

This project models the parts of the Luna agent that hold state over unbounded runs, and proves
what they keep. `dafny verify dfyconfig.toml` checks all of it.

| modules | what they model |
|---|---|
| `Messages`, `ToolCalls` | chat messages made of blocks; one batch of tool calls |
| `Selection`, `ToolPairs`, `Compaction`, `Stability`, `History`, `CleanCuts`, `Handoff` | the context compressor: the token-bounded tail, the repair of tool pairs at the cut, retained user messages, the replacement history, and the reduction of oversized tool results |
| `TurnLoop`, `AgentLoop` | one turn: the state machine of the loop, and the object that runs it |
| `TurnOutcomes`, `TurnBounds`, `TurnRounds`, `TurnSafety`, `TurnClosing`, `TurnCaps`, `RequestViews` | what each pass makes of a turn, and theorems over whole turns and over the requests they send |
| `TurnStorage`, `Transcript`, `StoppedTurns`, `Session`, `StoppedAtCheckpoint` | what is stored of a turn, by how it ended, and theorems over sessions of turns |
| `Delegation`, `RunTable`, `RunOutcomes`, `AgentRuntime` | delegated agents: tool authorization, quotas, and the table of concurrent runs |
| `GitHubWatch`, `Ledger`, `Reminder`, `ReminderRetries`, `ReminderRunner`, `WorkspaceWatch` | the polling and durable protocols |
| `ContextBudget` | the compaction threshold and its two gates |

Everything outside the program (the model's replies and errors, tool outcomes, users, clocks,
fetches, restarts) is an input that takes any value at any step, so each theorem holds for every
behaviour of it. Code between two points where a task may be suspended is one step.

Where the code does less than its comments or names suggest, the model follows the code; the
failing case is a lemma with a concrete input, and another lemma states exactly when the code
meets the promise:

- One pass of the pair repair leaves a half round when a message carries blocks of two rounds
  (`MixedAnswersNeedASecondPass`); it is enough exactly when no pair is split by what it drops
  (`OnePassClosedIff`), which always holds when each message answers the calls of the one before
  it (`OnePassClosesRounds`). Ids that repeat across rounds, as the fallback ids `tool-1`,
  `tool-2` do, can leave a result without its call (`RepeatedIdIsOrphaned`). Checkpoints keep a
  conversation paired exactly when they cut it cleanly, one by one (`CheckpointsStayOrderedIff`)
  and over whole runs (`RunsStayPairedIff`).
- A second compaction changes nothing but the summary exactly when no pair in the recent tail is
  split (`StableIffUnsplit`, `MixedHistoryIsUnstable`), as in every conversation of the loop with
  distinct ids (`OrderedHistoriesAreStable`).
- Only repeated ids are dropped from a batch of calls, so a reply respects the cap of three
  identical successful calls exactly when it runs no round or its round has room for every call in
  it (`ReplyStaysCappedIff`, `FourAtOnceExceedTheCap`).
- A skill text that is to be injected once is not sent at all when the first pass compacts
  (`SkillIsSentIff`, `SkillIsLost`).
- Of whatever messages a stopped turn has, no result is stored without its call, and a call
  without a result exactly when it repeats an id answered only before it
  (`StoppedTranscriptIsPairedIff`, `LateCallIsStored`); a history of the loop has no such call
  (`HandedOnIsPaired`). A turn stopped right after a checkpoint stores a second time what the
  checkpoint holds, and so repeats ids exactly when there are calls in it (`RoundIsStoredTwice`,
  `FreshTurnHandsOnSoundIff`).
- A turn without an iteration to spend is reported as completed although it ends on the user's
  message (`ReportedTurnsEndOnTheAssistantIff`).
- A ratio of zero turns compaction off in the loop, and on for every turn with some history before
  it (`ZeroRatioCompactsEveryTurn`, `GatesAgreeIff`).
- The two views of a request can list two instructions in opposite orders
  (`BothInstructionsReachable`, `ViewsAgreeIff`), and dropping old retry instructions by text can
  separate a call from its result in what is sent (`ArtefactTextOrphansResults`,
  `SentIsPairedIff`).
- Token use is undercounted when only some replies report a total (`UsedIsSpentIff`,
  `MixedReportsHideUsage`).
- A watch that is meant to start silently reports everything as created when its first fetch fails
  (`FailedStartFloods`, `SilentStartIff`). The queue of events need not end in the value observed
  (`QueueMayEndStale`, `QueueEndsFreshIff`).
- A request can be claimed as new again after a restart (`RestartMakesNewAgain`,
  `ReopenMakesNewIff`), and a late update takes a stored outcome back (`LateUpdateUndoesFinal`,
  `FinalIsReplayedIff`); a pending delivery replays as completed whatever its outcome was
  (`ReplayIsTruthfulIff`).
- Cancelling a reminder holds exactly when the runner is not in the middle of it
  (`CancelHoldsIff`, `CancelledYetDelivered`). A reminder that is firing when its runner is
  launched again beside the same repository stays so (`RelaunchLeavesFiring`).

## Model

| member | source | states |
|---|---|---|
| Messages.SummaryIsRecognised | src/luna_agent/compression/simple.py:164-175 | every summary message the compressor writes is recognised as one later |
| Messages.SummaryIff | src/luna_agent/compression/simple.py:164-168 | a text is taken for a summary exactly when it begins, after any spaces, with one of the two marks |
| Messages.SummarySays | src/luna_agent/compression/simple.py:171-175 | a summary message is the user's and says the mark and the stripped summary |
| Messages.TypedIff | src/luna_agent/compression/simple.py:214-228 | text of the user counts as typed exactly when it is not blank and not a summary |
| Messages.RealUserHasNoResults | src/luna_agent/compression/simple.py:214-228 | a message taken for a user turn answers no tool call |
| Selection.SelectRecentIndices | src/luna_agent/compression/simple.py:178-191 | the loop selects the specified suffix: summaries are skipped, the first misfit stops it |
| Selection.NoBudgetNoTail | src/luna_agent/compression/simple.py:179-180 | with no budget only summaries stand behind the cut, so the tail is empty |
| Selection.RecentIsMaximal | src/luna_agent/compression/simple.py:183-190 | the tail fits the budget, and the message before it is not a summary and would not fit |
| Selection.CutCoversFittingTail | src/luna_agent/compression/simple.py:182-191 | a block of final messages that fits as a whole is inside the tail |
| Selection.SelectUserIndices | src/luna_agent/compression/simple.py:194-211 | the loop selects the specified user messages and reports the exact sum of their costs |
| Selection.UsersAreMaximal | src/luna_agent/compression/simple.py:203-210 | the retained user messages fit their budget and the newest one left out would not |
| Selection.AllCandidatesFit | src/luna_agent/compression/simple.py:194-211 | when all candidates fit together, none is left out |
| ToolPairs.RecordBlocks | src/luna_agent/compression/simple.py:235-240 | recording a message maps each of its call and result ids to it |
| ToolPairs.CompleteToolPairs | src/luna_agent/compression/simple.py:231-246 | the repair pass computes the specified set, in whatever order the selection is visited |
| ToolPairs.NoOrphanSurvives | src/luna_agent/compression/simple.py:241-246 | a message all of whose ids are matched in the selection is kept |
| ToolPairs.PassDropsOrphans | src/luna_agent/compression/simple.py:231-246 | with distinct ids, exactly the messages holding an unmatched call or result are dropped |
| ToolPairs.OnePassClosedIff | src/luna_agent/compression/simple.py:231-246 | one pass leaves every call with its result and conversely, if and only if it splits no pair |
| ToolPairs.MixedAnswersNeedASecondPass | src/luna_agent/compression/simple.py:231-246 | a history in which every call is answered later and ids are distinct, and for whose last two messages one pass is not enough, in any order |
| Compaction.MixedTailStaysOpen | src/luna_agent/compression/simple.py:142-143 | messages of that kind, and budgets under which the scan picks those two and the checkpoint keeps a call without its answer |
| ToolPairs.OnePassClosesRounds | src/luna_agent/compression/simple.py:231-246 | when each message answers the calls before it, one pass on any selection is closed and keeps exactly the uncut rounds |
| ToolPairs.RoundsStayWholeIff | src/luna_agent/compression/simple.py:231-246 | without distinct ids, rounds stay whole for every visiting order exactly when each cut message mentions an id the rest of the selection does not |
| ToolPairs.CutAnswerDroppedIff | src/luna_agent/compression/simple.py:235-246 | when ids may repeat, a result cut from its call is dropped exactly when no later selected call carries its id |
| CleanCuts.CheckpointsStayOrderedIff | src/luna_agent/compression/simple.py:142-155 | the replacement of a paired history is paired, for every visiting order, exactly when the cut is clean |
| CleanCuts.RunsStayPairedIff | src/luna_agent/agent/loop.py:143-158 | the history stays paired all along a run, for every visiting order of its checkpoints, exactly when each of them cuts cleanly |
| CleanCuts.RepeatedIdIsOrphaned | src/luna_agent/compression/simple.py:142-143 | two rounds under one fallback id and budgets under which every checkpoint keeps a result without its call |
| Compaction.BuildReplacementHistory | src/luna_agent/compression/simple.py:137-155 | composes tail, repair, user messages and summary into the specified replacement, whose last message says the mark and the stripped summary |
| Compaction.ReplacementShape | src/luna_agent/compression/simple.py:137-155 | the replacement is a subsequence of the non-summary messages plus one summary; tail and users are disjoint, each within its budget |
| Compaction.ReplacementIsPicked | src/luna_agent/compression/simple.py:151-154 | filtering summaries after selection removes nothing that was selected |
| Stability.ClosedTailIsStable | src/luna_agent/compression/simple.py:137-155 | compacting a replacement again keeps every message in order and only swaps the summary, when the repaired tail is closed |
| Stability.StableIffUnsplit | src/luna_agent/compression/simple.py:137-155 | with distinct ids, and no calls in typed messages, a second compaction changes only the summary exactly when no pair in the recent tail is split by what the repair drops |
| Stability.OrderedHistoriesAreStable | src/luna_agent/compression/simple.py:137-155 | it changes only the summary for every conversation in the loop's shape whose cut is clean, so always when ids are distinct |
| Stability.OpenTailLosesAMessage | src/luna_agent/compression/simple.py:231-246 | a half round left in the tail costs the second compaction a message |
| Stability.MixedHistoryIsUnstable | src/luna_agent/compression/simple.py:137-155 | messages and budgets for which a second compaction is not the first with a new summary |
| History.SoundRound | src/luna_agent/agent/loop.py:547-568 | a tool round with new ids keeps every call answered by the next message |
| History.CleanCutIff | src/luna_agent/compression/simple.py:142-143 | a checkpoint keeps rounds whole in its tail, for every visiting order, exactly when its cut is clean |
| History.CheckpointKeepsRounds | src/luna_agent/compression/simple.py:142-151 | with distinct ids every cut is clean, and a checkpoint keeps or drops both messages of a round |
| History.CheckpointIsOrdered | src/luna_agent/compression/simple.py:137-155 | a checkpoint with a clean cut keeps every call answered by the next message, even if ids repeat |
| History.CheckpointIsSound | src/luna_agent/compression/simple.py:137-155 | compacting a paired conversation gives a paired conversation |
| Handoff.FitHandoffInput | src/luna_agent/compression/simple.py:318-348 | leaves input alone without a budget or when it fits, and otherwise computes the specified reduction |
| Handoff.CondenseKeepsBothEnds | src/luna_agent/compression/simple.py:351-365 | a condensed text is a beginning and an end of the original with the omitted length between, in proportion to the tokens left to it |
| Handoff.FitMeans | src/luna_agent/compression/simple.py:331-348 | each non-empty result before the stopping point is condensed by what was missing when it was reached; nothing else changes; it stops at the first result reached with a fitting history, or at the end |
| Handoff.ReducedByExcess | src/luna_agent/compression/simple.py:336-347 | a result with more tokens than are missing keeps both ends in proportion to the difference, and any other becomes a note of its size |
| Handoff.ReducedIsExact | src/luna_agent/compression/simple.py:330-348 | the reported count is the number of results condensed |
| Handoff.FitsOrAllCutDown | src/luna_agent/compression/simple.py:318-348 | if the result still does not fit, every non-empty tool result has been cut and marked, under its own id |
| Handoff.CutIsShorterIff | src/luna_agent/compression/simple.py:351-365 | a cut text is shorter than the original exactly when the mark is shorter than what was omitted |
| ToolCalls.DeduplicateToolCalls | src/luna_agent/tools/executor.py:230-262 | keeps the first call of each id and lists the places of the rest |
| ToolCalls.RepeatsAreExact | src/luna_agent/tools/executor.py:243-262 | exactly the calls that repeat an earlier id are suppressed, each once |
| ToolCalls.NamelessCallIsKept | src/luna_agent/tools/executor.py:236-241 | a call without an id is executed with its name and input, unless an earlier one was given the very id it gets |
| ToolCalls.FirstNamedCallIsKept | src/luna_agent/tools/executor.py:236-262 | the first call of an id is executed under that id, stripped, with its name and input |
| ToolCalls.FirstOfEachIdIsExact | src/luna_agent/tools/executor.py:235-262 | ids come out distinct, every kept call is the first of its id, no id is lost |
| ToolCalls.DeduplicatedIds | src/luna_agent/tools/executor.py:236-241 | every call that is executed has an id, and no two share one |
| ToolCalls.DistinctUnchanged | src/luna_agent/tools/executor.py:131-136 | the second filtering at the executor changes nothing |
| TurnSafety.SteerStaysPaired | src/luna_agent/agent/loop.py:793-818 | a steering message keeps the history paired |
| TurnSafety.CheckpointInOrder | src/luna_agent/agent/loop.py:673-712 | compacting the active context with a clean cut keeps it paired |
| AgentLoop.Agent.StripImageBlocks | src/luna_agent/agent/loop.py:737-750 | strips every message in place and reports whether any changed |
| TurnBounds.FailurePays | src/luna_agent/agent/loop.py:228-322 | every way of going on after a failed call uses up an allowance of its own |
| TurnSafety.FailureKeeps | src/luna_agent/agent/loop.py:228-322 | and keeps every property of the history that notes, image stripping and its checkpoint keep |
| TurnBounds.EmptyPays | src/luna_agent/agent/loop.py:400-449 | so does every way of going on after an empty reply |
| TurnBounds.AnswerPays | src/luna_agent/agent/loop.py:480-511 | and after an answer, unless the user steers |
| AgentLoop.Agent.ExecuteCalls | src/luna_agent/agent/loop.py:547-577 | the round joins the history and each success is counted under its signature |
| TurnBounds.AfterToolsPays | src/luna_agent/agent/loop.py:579-642 | and after a tool round |
| TurnBounds.ReplyPays | src/luna_agent/agent/loop.py:324-642 | every reply costs one model call of the allowance, unless it is answered with steering |
| AgentLoop.Agent.OnePass | src/luna_agent/agent/loop.py:89-642 | one pass of the loop body; an answer without calls joins the history as it is, followed by what the user says to it |
| TurnOutcomes.PassSends | src/luna_agent/agent/loop.py:89-158 | an interrupted pass only stops the turn; one that takes a checkpoint replaces the history and asks nothing; any other sends the history with the steering that joined it, its current message, instructions and skill text |
| TurnOutcomes.AnswerIsRecorded | src/luna_agent/agent/loop.py:480-511 | an answer without calls joins the history, followed by steering, and completes the turn exactly when there is neither steering nor a hook that continues it |
| TurnOutcomes.EmptyReplyIsRetried | src/luna_agent/agent/loop.py:400-449 | an empty reply adds nothing while the closing request or a nudge is left, and then the fixed answer that ends the turn |
| TurnOutcomes.ClosingReplyIsRecorded | src/luna_agent/agent/loop.py:390-398 | a closing turn ends with the reply's text, or its fallback, and runs no call |
| TurnOutcomes.InvalidCallsAreRetried | src/luna_agent/agent/loop.py:454-478 | a batch with a call without arguments is asked for again twice, and none of it runs |
| TurnOutcomes.ExhaustedCallsClose | src/luna_agent/agent/loop.py:513-545 | a batch with a call that succeeded three times does not run and makes the closing request due |
| TurnOutcomes.RoundCarries | src/luna_agent/agent/loop.py:547-568 | each call of a round appears with its id, name and input, and its result with what the tool returned |
| TurnOutcomes.VerdictIs | src/luna_agent/agent/loop.py:579-622 | how the outcomes of a round are judged: approval missing for all, a barred call, a spent quota, or nothing |
| TurnOutcomes.RoundIsRecorded | src/luna_agent/agent/loop.py:547-642 | any other batch runs whole: its round joins the history, with a notice exactly when it ends the turn, and with the matching closing request |
| TurnOutcomes.CancelledCallStops | src/luna_agent/agent/loop.py:217-226 | a cancelled call stops the turn and leaves the history as it was sent |
| TurnOutcomes.FailureOutcome | src/luna_agent/agent/loop.py:227-322 | what a failed call makes of the turn: a checkpoint or an overflow, the closing fallback, the history without its images, a nudge, or an error |
| AgentLoop.Agent.RunConversation | src/luna_agent/agent/loop.py:89-642 | the loop terminates in a state its passes reach, within the bound on model calls |
| TurnBounds.PassPays | src/luna_agent/agent/loop.py:89-642 | each pass compacts or pays for its model call out of the remaining allowance, and the measure falls |
| TurnBounds.AtMostTenRetries | src/luna_agent/agent/retry.py:14-24 | a turn with budget B that takes S steering messages makes at most B + S + 10 model calls |
| TurnBounds.TurnEnds | src/luna_agent/agent/loop.py:89-642 | a turn still going after N passes has taken steering often enough to account for them |
| TurnBounds.CompactionDoesNotRepeat | src/luna_agent/agent/loop.py:143-158 | after a compacting pass the next one asks the model or stops, unless the user steered |
| TurnRounds.RoundsWithinBudget | src/luna_agent/agent/loop.py:562-642 | max_iterations bounds the tool rounds of a turn on every path |
| TurnRounds.RoundOutcome | src/luna_agent/agent/loop.py:579-642 | when exactly a round completes the turn, closes it, or costs one iteration |
| TurnRounds.ReportedTurnsEndOnTheAssistantIff | src/luna_agent/agent/loop.py:624-658 | a turn reported as completed ends on a message of the assistant exactly when it had an iteration to spend, and else is the turn it started as |
| TurnSafety.RoundShapes | src/luna_agent/agent/loop.py:547-568 | a round is one message with the calls and one with their results in the same order |
| TurnSafety.StripKeepsShape | src/luna_agent/agent/loop.py:737-750 | stripping images touches no call and no result |
| TurnSafety.WithoutImagesIsExact | src/luna_agent/agent/loop.py:743-748 | exactly the image blocks are removed |
| TurnSafety.StrippingIsIdempotent | src/luna_agent/agent/loop.py:737-750 | stripping twice strips nothing more |
| TurnSafety.RunKeeps | src/luna_agent/agent/loop.py:89-642 | any property of histories that notes and image stripping keep, and the rounds and checkpoints of a run do, holds of every history the run sends and leaves |
| TurnSafety.EveryRequestIsPaired | src/luna_agent/agent/loop.py:89-642 | at every model call of every run whose checkpoints cut cleanly, each call is answered in the next message and no result is orphaned; ids may repeat |
| TurnSafety.UncompactedRunsAreTidy | src/luna_agent/agent/loop.py:89-642 | which asks nothing of runs without checkpoints |
| TurnSafety.FreshRunsAreTidy | src/luna_agent/agent/loop.py:547-577 | and is met by every run whose replies use new ids |
| TurnStorage.RunAnchored | src/luna_agent/conversation/service.py:226-243 | at every point of a run what is stored has the shape of the history before the turn's own messages |
| TurnStorage.RunStored | src/luna_agent/conversation/service.py:226-243 | what holds of the history throughout a run holds of what is stored of it |
| Transcript.CurrentTurnMessages | src/luna_agent/conversation/transcript.py:82-99 | the turn's messages from the known index, or from the last message that reads like the user's, or the text alone |
| Transcript.FilterBlocks | src/luna_agent/conversation/transcript.py:40-58 | the loop over one message's blocks keeps the specified blocks and ids and counts the dropped calls |
| Transcript.BuildStoppedTurnTranscript | src/luna_agent/conversation/transcript.py:16-79 | the stored part of a stopped turn and its counts |
| Transcript.StoppedTranscriptIsPairedIff | src/luna_agent/conversation/transcript.py:23-62 | for any messages, no result is stored without an earlier call, and every stored call has a later result exactly when no call comes after the last result with its id |
| Transcript.CallsAreConserved | src/luna_agent/conversation/transcript.py:44-52 | every call of a stopped turn is stored or counted as dropped |
| Transcript.MarkerIsStripped | src/luna_agent/conversation/transcript.py:64 | the closing text is the final response, stripped, or a fixed word when that is blank |
| Transcript.TranscriptEndsWithClosing | src/luna_agent/conversation/transcript.py:64-69 | what is stored of a stopped turn ends with the assistant saying the closing text |
| Transcript.LateCallIsStored | src/luna_agent/conversation/transcript.py:44-52 | a turn stopped in its second round, whose repeated id is stored as a call without a result |
| StoppedTurns.CompleteIsPicked | src/luna_agent/conversation/transcript.py:34-62 | of a paired history only messages without content are left out |
| StoppedTurns.UnstoppedTurnHandsOn | src/luna_agent/conversation/service.py:313-353 | a completed turn hands on its history, a failed one what was stored before, the user's text unless a checkpoint holds it, and the closing message |
| StoppedTurns.StoppedTurnHandsOn | src/luna_agent/conversation/service.py:327-338 | a stopped turn hands on what was stored before and then its transcript |
| StoppedTurns.HandedOnIsPaired | src/luna_agent/conversation/service.py:313-353 | completed, stopped or failed, a turn whose history is paired hands on a paired one |
| StoppedTurns.HandedOnIsSilent | src/luna_agent/conversation/service.py:313-353 | and results without text stay without it |
| StoppedTurns.StoppedIdsAreDistinctIff | src/luna_agent/conversation/transcript.py:88-99 | a stopped turn hands on distinct ids exactly when it has messages of its own or what is found in their place has no calls |
| StoppedTurns.OtherEndsAreDistinct | src/luna_agent/conversation/service.py:313-353 | a turn that ends in any other way keeps ids distinct |
| Session.SessionStaysPaired | src/luna_agent/conversation/service.py:207-353 | tool rounds stay paired over any sequence of turns, each built from the history that was stored of the last one |
| Session.FreshTurnHandsOnSoundIff | src/luna_agent/conversation/service.py:313-353 | a turn with new ids hands on a history with distinct ids exactly when no stop makes it store a round twice |
| Session.FreshSessionsAreWellBehaved | src/luna_agent/agent/context.py:138-159 | new ids throughout a session, and no round stored twice, are enough for all its checkpoints to cut cleanly |
| StoppedAtCheckpoint.RoundIsStoredTwice | src/luna_agent/conversation/transcript.py:82-99 | a turn from an empty history, stopped right after its checkpoint, whose round is stored twice under one id |
| Session.SessionSendsPairsIff | src/luna_agent/agent/loop.py:121-131 | when what a session sends is paired at each of its model calls |
| Session.TurnStartsPaired | src/luna_agent/agent/context.py:138-159 | a turn built from a paired history, compacted or not, starts paired |
| Session.TurnStartsFrom | src/luna_agent/agent/context.py:138-182 | a turn starts from the checkpoint of the stored history, when there is one, or from that history, with the user's message last |
| TurnClosing.FirstReplyEndsTheTurn | src/luna_agent/agent/loop.py:390-398 | from a closing state on, a run in which the model replies at all is completed by the first reply, with the assistant speaking last and no tool run |
| TurnClosing.NoToolsWhileClosing | src/luna_agent/agent/loop.py:105-118 | once closing is due no tool runs and no later request offers tools |
| TurnClosing.DenialEndsToolUse | src/luna_agent/agent/loop.py:513-622 | a hard denial, a tool quota or the duplicate limit is the last tool activity of the turn |
| TurnClosing.EmptyAfterToolsEndsToolUse | src/luna_agent/agent/loop.py:403-420 | so is an empty reply after tools |
| TurnClosing.InstructionAlwaysMatches | src/luna_agent/agent/loop.py:105-118 | closing is due exactly when there is a closing instruction |
| TurnClosing.SkillIsSentIff | src/luna_agent/agent/loop.py:892-898 | the skill text is sent at most once, and at all exactly when the first pass asks the model |
| TurnClosing.SkillIsLost | src/luna_agent/agent/loop.py:892-898 | on any turn with some history, a first pass that compacts loses the skill text |
| TurnClosing.BothInstructionsReachable | src/luna_agent/agent/loop.py:403-420 | a run from the start of any turn with two iterations, and its request that carries both instructions |
| TurnCaps.TallyAdds | src/luna_agent/agent/loop.py:575-577 | a count grows by exactly the successes of the round |
| TurnCaps.ReplyStaysCappedIff | src/luna_agent/agent/loop.py:453-577 | a reply leaves the turn within the cap for all tool outcomes exactly when it runs no round, or no signature occurs in its round more often than the cap still allows |
| TurnCaps.TurnStaysCapped | src/luna_agent/agent/loop.py:513-577 | no call succeeds more than three times in a turn whose rounds have that room |
| TurnCaps.DistinctRunsAreRoomy | src/luna_agent/agent/loop.py:513-545 | as they do when no reply makes the same call twice |
| TurnCaps.FourAtOnceExceedTheCap | src/luna_agent/tools/executor.py:230-262 | a reply with four identical calls under four ids, which takes the turn over the cap |
| RequestViews.StripLegacyRetryMessages | src/luna_agent/agent/loop.py:977-990 | the loop with its skip counter computes the specified filter |
| RequestViews.ArtefactTakesTwo | src/luna_agent/agent/loop.py:977-990 | an old retry instruction takes the next two continue requests with it, and a continue request alone stays |
| RequestViews.StripSplits | src/luna_agent/agent/loop.py:977-990 | filtering a concatenation, in terms of the skips left over |
| RequestViews.StripDistributesIff | src/luna_agent/agent/loop.py:939-944 | filtering both sides of a message equals filtering the whole exactly when the message survives, and otherwise keeps more |
| RequestViews.BuildApiMessages | src/luna_agent/agent/loop.py:108-118 | builds the flat view with its injections and instructions |
| RequestViews.BuildRequestPlan | src/luna_agent/agent/loop.py:913-974 | builds the sectioned plan |
| RequestViews.InjectionsComeFirst | src/luna_agent/agent/loop.py:882-974 | both views begin with the memory, the skill text and the summaries |
| RequestViews.InstructionsComeLast | src/luna_agent/agent/loop.py:882-974 | what is sent ends with the nudge or the closing instruction, whichever the view puts last |
| RequestViews.ViewsAgreeIff | src/luna_agent/agent/loop.py:882-974 | the flattened plan equals the flat view exactly without active intent, with a surviving current message, and without two different instructions |
| RequestViews.ViewsAgreeAlongRuns | src/luna_agent/agent/loop.py:104-131 | the same at every request of every run |
| RequestViews.SentIsPairedIff | src/luna_agent/agent/loop.py:936-944 | the plan of a paired history is paired exactly when no calling message but the current one reads like an old retry instruction |
| RequestViews.PlanIsPairedIff | src/luna_agent/llm/base.py:124-130 | and what is serialised from the plan is paired exactly when its history is |
| RequestViews.SentAlongRunsIsPairedIff | src/luna_agent/agent/loop.py:121-131 | the same for the plan of every request of every run |
| RequestViews.ArtefactTextOrphansResults | src/luna_agent/agent/loop.py:993-1001 | a tool round after which the next request of the turn sends results without their calls |
| Delegation.SelectTools | src/luna_agent/agents/runtime.py:395-422 | every named tool is granted or denied with its reason |
| Delegation.PolicyNames | src/luna_agent/agents/runtime.py:422-446 | which tools each policy names |
| Delegation.DenialReason | src/luna_agent/agents/runtime.py:448-470 | which reason a denied tool is given |
| Delegation.GrantedIff | src/luna_agent/agents/runtime.py:448-470 | granted exactly when offered, named by the policy, never delegating, and destructive only when authorized |
| Delegation.AuthorizeToolCalls | src/luna_agent/agents/runtime.py:472-509 | one decision per call id, taken in the order of the checks |
| Delegation.GatesAgree | src/luna_agent/agents/runtime.py:472-509 | the second gate lets through exactly granted tools within the quota and refuses granted tools for the quota alone |
| Delegation.HandedWithinQuota | src/luna_agent/agents/runtime.py:485-487 | at most max_tool_calls calls reach the executor |
| Delegation.HandedIff | src/luna_agent/agents/runtime.py:602-612 | which calls reach the executor, in terms of policy, registry, authorization and position |
| Delegation.AnswerCalls | src/luna_agent/agents/runtime.py:625-654 | an error report turns an allowed call into a denied one, and every call is answered |
| Delegation.ExecutedIff | src/luna_agent/agents/runtime.py:259-263 | a call counts as executed exactly when it was handed over and its report is no error |
| Delegation.RequestedSplits | src/luna_agent/agents/runtime.py:259-268 | executed and denied calls together are exactly the requested ones |
| Delegation.ExecutedOrDenied | src/luna_agent/agents/runtime.py:259-268 | no call is both |
| Delegation.AnswersMatchCalls | src/luna_agent/agents/runtime.py:646-654 | the results answer the calls one to one, in order |
| Delegation.RunTools | src/luna_agent/agents/runtime.py:246-268 | one round of delegated tools with all of the above, each call answered with its report, or as skipped when it was handed over and not reported |
| RunTable.ClampInRange | src/luna_agent/agents/runtime.py:369-370 | a run's quota is the requested one as far as the runtime's limit allows |
| RunTable.UsedIsSpentIff | src/luna_agent/agents/runtime.py:656-665 | the quota is charged what replies used exactly when none or all of them report totals, and never more |
| RunTable.MixedReportsHideUsage | src/luna_agent/agents/runtime.py:656-681 | the steps of a run that completes within its quota after replies that used twice as much |
| RunTable.ProceedIsProper | src/luna_agent/agents/runtime.py:223-320 | each resumption ends a run for good or moves it to a later wait within its quota |
| RunOutcomes.BeginOutcome | src/luna_agent/agents/runtime.py:183-206 | a run is recorded as failed without a model, as over quota in a full table, and else waits for its first reply |
| RunOutcomes.InterruptionOutcome | src/luna_agent/agents/runtime.py:298-312 | a cancelled, timed out or failed run is recorded as just that, except that a retry for its schema completes it within its quota |
| RunOutcomes.ReplyOutcome | src/luna_agent/agents/runtime.py:233-297 | where each reply leads, by what the run waits for, its quota, its tools and its schema |
| RunOutcomes.ToolsOutcome | src/luna_agent/agents/runtime.py:246-281 | after its tools a run asks for its final reply |
| RunOutcomes.UsageIsAlwaysHeard | src/luna_agent/agents/runtime.py:656-660 | over every interleaving a run's usage is the sum of what the replies to it reported |
| RunOutcomes.RecordedIsSpentIff | src/luna_agent/agents/runtime.py:656-681 | over every interleaving a recorded run is charged what its replies used exactly when none or all report totals, and else less |
| RunOutcomes.HistoryIsLatest | src/luna_agent/agents/runtime.py:372-374 | the history is the latest part of the record, as long as its bound permits |
| RunTable.TableIsAlwaysValid | src/luna_agent/agents/runtime.py:183-374 | over every interleaving: bounded concurrency, each run active or recorded exactly once, completed runs within quota, history the latest part of the record |
| AgentRuntime.Runtime.Start | src/luna_agent/agents/runtime.py:159-206 | a run is refused and recorded, or enters the table |
| AgentRuntime.Runtime.Continue | src/luna_agent/agents/runtime.py:223-320 | a run from one wait to the next or to its record, as cancelled, timed out or failed when it is that; a failed schema retry still completes |
| RunTable.ConcludeIsSettled | src/luna_agent/agents/runtime.py:667-687 | the last quota check ends a run for good: completed within its quota, or marked as over it |
| RunTable.CancelledRunsEndCancelled | src/luna_agent/agents/runtime.py:344-350 | every run active when all are cancelled is recorded as cancelled when it ends, and ends in no other way |
| AgentRuntime.Runtime.CancelAll | src/luna_agent/agents/runtime.py:344-350 | every active run is marked and its task cancelled, and their number is returned |
| GitHubWatch.GitHubWatcher.PollOnce | plugins/github_assistant/github_assistant.py:201-253 | one poll of the watcher, keeping both invariants |
| GitHubWatch.GitHubWatcher.RepositorySnapshot | plugins/github_assistant/github_assistant.py:255-278 | an item is in the snapshot exactly when its category's call returned it, or failed and it was there before |
| GitHubWatch.GitHubWatcher.SnapshotDiff | plugins/github_assistant/github_assistant.py:424-447 | exactly one event for each item that is new or differs |
| GitHubWatch.ObservedIff | plugins/github_assistant/github_assistant.py:255-278 | after a poll an item is observed exactly when the call for its category returned it, or failed and it was observed before |
| GitHubWatch.QueuedIff | plugins/github_assistant/github_assistant.py:424-447 | a poll queues exactly the events that say what an observed item became and what it was |
| GitHubWatch.ReturnedItemIsCreated | plugins/github_assistant/github_assistant.py:424-447 | an item that a successful call left out and a later one returns is queued as created |
| GitHubWatch.UnnamedIsSkipped | plugins/github_assistant/github_assistant.py:208-212 | a repository without an owner and a name is not looked at |
| GitHubWatch.PollKeeps | plugins/github_assistant/github_assistant.py:201-253 | every observed value is delivered or pending, every delivered value was told or a baseline, and nothing dealt with is forgotten |
| GitHubWatch.NothingIsLost | plugins/github_assistant/github_assistant.py:201-253 | a value observed at any poll of a run is told, part of a baseline, or still pending at every later one |
| GitHubWatch.PendingLeavesIff | plugins/github_assistant/github_assistant.py:239-246 | an event leaves the queue exactly when there are sessions and all of them took it |
| GitHubWatch.FailureIsSilent | plugins/github_assistant/github_assistant.py:272-278 | when a repository's calls for a category fail in a poll, the poll queues no event for it and keeps its items |
| GitHubWatch.SilentStartIff | plugins/github_assistant/github_assistant.py:217-224 | two polls of a silent start over any number of distinct repositories queue and tell nothing exactly when the second fetches nothing the first had not |
| GitHubWatch.FailedStartFloods | plugins/github_assistant/github_assistant.py:217-224 | two polls of a silent start, the first of which fails, after which an old item is reported as created |
| GitHubWatch.QueueMayEndStale | plugins/github_assistant/github_assistant.py:227-228 | a run after which the last waiting event about an item carries an older value than the one observed |
| GitHubWatch.QueueEndsFreshIff | plugins/github_assistant/github_assistant.py:227-228 | when, after a poll that tells no one, the last waiting event about a changed item carries its new value |
| Ledger.DurableSubmissionLedger.Claim | src/luna_agent/conversation/ledger.py:83-116 | a claim inserts, takes over an interrupted row, or changes nothing, and says which |
| Ledger.DurableSubmissionLedger.Update | src/luna_agent/conversation/ledger.py:118-171 | an update changes its own row alone |
| Ledger.DurableSubmissionLedger.Prune | src/luna_agent/db/database.py:370-378 | exactly the outdated settled rows are removed and counted |
| Ledger.ReopenMakesNewIff | src/luna_agent/db/database.py:254-257 | after a restart a claim is new exactly for unknown or unfinished requests, and else answered as before |
| Ledger.ClaimIsLocal | src/luna_agent/conversation/ledger.py:107-116 | a conflict is exactly a different payload under a known id, and changes nothing |
| Ledger.NewIsAccountedFor | src/luna_agent/conversation/ledger.py:83-116 | how often a request is new, in terms of removals, interruptions and late updates, over any interleaving |
| Ledger.NewAtMostOnce | src/luna_agent/conversation/ledger.py:83-116 | between prunes and restarts at most one claim is new |
| Ledger.RestartMakesNewAgain | src/luna_agent/db/database.py:313-322 | a restart makes a second new claim possible |
| Ledger.FinalIsReplayedIff | src/luna_agent/conversation/ledger.py:135-157 | a stored final outcome is replayed after each of any later steps exactly when none prunes its row or stores anything else for the request |
| Ledger.StepKeepsAnswerIff | src/luna_agent/conversation/ledger.py:164-171 | which single steps leave the answer of a request as it is |
| Ledger.ReplayIsTruthfulIff | src/luna_agent/conversation/ledger.py:46-69 | which stored outcomes replay as they were |
| Ledger.ConversationIsResumed | src/luna_agent/conversation/ledger.py:121-133 | after a stored conversation every claim of the request resumes it, unchanged, with what the conversation said |
| Ledger.RunningIsActive | src/luna_agent/conversation/ledger.py:118-119 | a request marked as running is active, under its turn |
| Ledger.AttemptsCountNews | src/luna_agent/db/database.py:313-322 | a row counts the claims of its request that were answered as new |
| Reminder.AlwaysValid | plugins/reminder/reminder.py:137-211 | over any run with crashes: submissions at most the allowed attempts plus the restarts that caught it firing, and no sleep outlasts a due time unnoticed |
| ReminderRetries.SettleOutcome | plugins/reminder/reminder.py:171-195 | a delivered reminder is completed; an undelivered one is scheduled again after the delay exactly while attempts are left, and else failed |
| ReminderRetries.FireOutcome | plugins/reminder/reminder.py:148-159 | a due reminder is given up exactly when it is overdue beyond the limit, and else submitted as one more attempt |
| ReminderRetries.SleepOutcome | plugins/reminder/reminder.py:197-198 | the runner sleeps for the delay, within its bounds, and an hour when nothing is scheduled |
| ReminderRetries.CreateOutcome | plugins/reminder/reminder.py:47-64 | a new reminder is scheduled for its time, with no attempt made |
| ReminderRetries.CancelOutcome | plugins/reminder/reminder.py:77-92 | cancelling marks a reminder that is not completed, and nothing else |
| ReminderRetries.FailedMeansExhausted | plugins/reminder/reminder.py:148-186 | over any run without an overdue limit, a failed reminder has used up its attempts |
| ReminderRetries.EveryAttemptIsMade | plugins/reminder/reminder.py:171-186 | a run in which every delivery fails and the reminder is submitted exactly as often as attempts are allowed |
| Reminder.SubmittedInWindow | plugins/reminder/reminder.py:148-159 | what is being submitted was due and not overdue beyond the limit |
| Reminder.NextKeeps | plugins/reminder/reminder.py:146-195 | every step of runner, users and restarts keeps that |
| Reminder.CancelledForGood | plugins/reminder/reminder.py:77-92 | a cancelled reminder the runner is not handling is never submitted again |
| Reminder.CancelHoldsIff | plugins/reminder/reminder.py:98-108 | cancelling holds for good exactly when the runner is not in the middle of the reminder |
| Reminder.CancelledYetDelivered | plugins/reminder/reminder.py:77-92 | a run from the empty store in which a cancelled reminder is submitted and completed |
| Reminder.RestartSchedulesAgain | plugins/reminder/reminder.py:34-45 | a restart schedules again, with its time and attempts, exactly what was firing, so that any later look lists it |
| Reminder.RelaunchLeavesFiring | plugins/reminder/reminder.py:137-144 | a runner launched again beside the same repository never settles what was firing |
| ReminderRunner.ReminderRepository.Due | plugins/reminder/reminder.py:94-96 | lists exactly the due reminders, each once |
| ReminderRunner.ReminderRepository.NextDueDelay | plugins/reminder/reminder.py:110-115 | the time to the earliest scheduled reminder |
| ReminderRunner.ReminderRunner.ReadDue | plugins/reminder/reminder.py:146-148 | one look at the repository queues exactly the due reminders, with their times and attempts |
| ReminderRunner.ReminderRunner.FireNextDue | plugins/reminder/reminder.py:148-159 | gives up an overdue reminder or starts its submission |
| ReminderRunner.ReminderRunner.SettleSubmission | plugins/reminder/reminder.py:171-195 | completes, schedules again or fails a reminder, by its outcome and the attempts left |
| ReminderRunner.ReminderRunner.WaitForChange | plugins/reminder/reminder.py:197-203 | reads the next due time and clears the event without a break |
| WorkspaceWatch.MachineRefinesHistory | examples/plugins/workspace_watch/workspace_watch.py:73-108 | a poll reports exactly when the file differs from the baseline of its history and its current run of equal sightings is old enough, whatever was skipped or unreadable |
| WorkspaceWatch.RunStartUnique | examples/plugins/workspace_watch/workspace_watch.py:97-104 | a run of equal sightings has one start |
| WorkspaceWatch.PauseIsLonger | examples/plugins/workspace_watch/workspace_watch.py:82-85 | an unreadable path is left alone for the longer of the two intervals |
| WorkspaceWatch.WorkspaceWatcher.PollPath | examples/plugins/workspace_watch/workspace_watch.py:77-108 | one path steps as specified and no other path is touched |
| WorkspaceWatch.WorkspaceWatcher.PollOnce | examples/plugins/workspace_watch/workspace_watch.py:73-119 | each look at a configured path is one step of it, in order, and exactly the settled changes are reported, in order |
| WorkspaceWatch.OneStepEach | examples/plugins/workspace_watch/workspace_watch.py:77-108 | so a path configured once takes one step and is reported by that step or not at all |
| ContextBudget.ThresholdIsPositiveIff | src/luna_agent/context_budget.py:22-29 | the threshold is positive exactly for a positive ratio, and otherwise zero |
| ContextBudget.ThresholdIsLargest | src/luna_agent/context_budget.py:22-29 | the threshold is the largest input within its share of the window that leaves room for reply and margin, and one token when there is none |
| ContextBudget.MarginIsLeast | src/luna_agent/context_budget.py:26 | the margin is the least number of tokens that is 4096 and a hundredth of the window |
| ContextBudget.ClampedInputs | src/luna_agent/context_budget.py:22-23 | a window counts as one token at least, and a ratio lies between zero and one |
| ContextBudget.ZeroRatioCompactsEveryTurn | src/luna_agent/compression/simple.py:65-66 | at ratio zero the gate before a turn opens for any two messages, and the loop's never |
| ContextBudget.GatesAgreeIff | src/luna_agent/context_budget.py:75-77 | for a history of two messages or more the two gates agree at every count exactly when the ratio is positive |
| ContextBudget.ThresholdFitsIff | src/luna_agent/context_budget.py:26-29 | threshold, reply and margin fit the window exactly when it has room for one token of input |
| ContextBudget.UnderThresholdFits | src/luna_agent/context_budget.py:75-77 | a request under the threshold leaves room for its reply |
| ContextBudget.ThresholdIsMonotone | src/luna_agent/context_budget.py:16-29 | larger windows and ratios raise the threshold, larger replies lower it |

## Left out

- Token counting is an arbitrary function of messages and texts; the compressor takes at least 1 for each message, as the code does.
- Reals stand for floats: rounding in the threshold, in the proportion of a condensed result and in times is not modelled.
- Prompts, notices and fallback texts of the loop are parameters; only whether an instruction is empty matters. Their translations, events, reports, usage counters and cache diagnostics are not modelled.
- Recognising errors and denials by their text is a property of the input, and so is a tool outcome's reason.
- Python visits a set in an unspecified order; the pair repair takes that order as an argument and the theorems hold for all of them.
- The body of the tool executor is not part of this model: each call of a round gets one result, in order, with an outcome from outside. An exception it raises, and one raised by a checkpoint sink or a hook, ends the turn in the code and is not modelled.
- AgentLoop.Agent: the loop's local variables and the turn context are record fields of one object, so aliasing of the message list by callers is not captured.
- Session.SessionStaysPaired: messages marked as an active intent, which are taken out before a turn is stored, the creation of a new stored session after a compaction without a result, and turns that end before their context is built are left out.
- Transcript.BuildStoppedTurnTranscript: a list item that is not a block, which is left out of what is stored, is not modelled; a turn always keeps an index of the user's message.
- RequestViews.SentAlongRunsIsPairedIff: starts from a history whose results carry no text, as every history the loop and the compressor build; a transport of another make that is given no plan sends the flat view instead.
- RequestViews.BuildApiMessages: memory and skill lookups are arguments; consuming the skill text is modelled in the turn.
- Handoff: a tool result that is not text is modelled by its text form.
- Delegation: parsing a policy text is left out; a policy is nothing, everything, the read-only set or an allowlist. An allowlist given as text and as a list is the same.
- RunTable.TableIsAlwaysValid: run ids are distinct, which the code gets from random ids; loading, clearing and replacing the stored history are left out, and so are failures of the store itself.
- GitHubWatch: hashes are injective, so an event id is what it is computed from. Normalising repository names, parsing payloads and the status file are left out, and so is the window between telling the sessions and saving that they were told, after which events are told again.
- GitHubWatch.QueueEndsFreshIff: is about a repository that is configured once, because the order in which one poll queues its events is left open.
- GitHubWatch.SilentStartIff: leaves out a configuration that names a repository twice.
- Ledger: a payload hash is a payload. The coordinator that calls the ledger is left out; its calls may come in any order.
- Reminder: the order in which due reminders are fired is left open; sessions and texts of reminders are left out. The delay is measured from the time read before the lock is taken, as in the code.
- WorkspaceWatch: the signature of a file is an input.
- AgentRuntime: an exception raised while the tools of a run are selected, after the run entered the table and before anything could take it out (src/luna_agent/agents/runtime.py:204-222), would keep it active for ever; it is not modelled.
- AgentRuntime: a call that is cancelled is taken to pass the cancellation on, as the executor does; one that swallows it is not modelled.
- Command line, feeds, attachments, artifacts, the registry and loader, the security evaluator and the development bridge: rendering, lookups or foreign calls without a state of their own to keep.
- Compression engines other than the built-in one: their output is arbitrary.
