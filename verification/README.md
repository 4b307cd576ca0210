# Alfredo: verified models of the controller

Alfredo drives Local Agents from a terminal: what a user or its autopilot asks for becomes a command, every
command is written down before it takes effect, tasks live in an append-only ledger, and accepted results become
branches. This project models the stateful engines behind that promise in Dafny and proves what they keep over
every run. `dafny verify dfyconfig.toml` checks everything.

The modules, from the core outwards:

- **History** (`Commands`, `History`, `Numbering`, `Eviction`, `Admission`, `AdmissionRules`, `Session`): the bounded
  command history of one conversation. `History` says what each operation makes of a history; `Session` is the object
  that updates it in place, loop by loop, proved against it; the other files prove what the operations keep,
  exactly what is evicted and exactly what is taken.
- **Write-ahead barrier** (`Barrier`, `BarrierSafety`, `BarrierRepeat`, `BarrierRuns`, `BarrierOutcomes`): memory,
  the pending token, the single background save and the disk as a step relation with crashes. Two theorems say when
  the same attempt can be dispatched twice: an exact condition on the copies a crash could bring back, and a rule for
  callers under which it never happens. Others say what each step leaves of the entry that waits.
- **Autopilot** (`Families`, `Liveness`, `Progress`, `AutopilotState`, `Autopilot`, `AutopilotRuns`,
  `AutopilotRounds`, `AutopilotLimits`, `AutopilotChoices`): settlement of task families, the absence of deadlock, a
  measure that every effective step lowers, the phase machine with re-entry and restarts, the finish hook, the bound
  on repeated decisions, and what is chosen when.
- **Publication and composition** (`Publication`, `Composition`): calls that publish a review branch as programs
  whose Git and ledger steps interleave with each other and with anything else, and merges on a growing commit
  graph.
- **Algorithms** (`Calendar`, `JsonText`, `CanonicalJson`, `Capture`, `Notes`, `Compaction`, `ActivityWindow`,
  `Timing`, `AgentChain`, `ArgvDisplay`, `TabDisplay`): each against an independent reference: counting days,
  a parser, the full rendering, counted instants, a reader.

Where the source updates an object, the model is a class whose methods are proved equal to functions of the old
state, and the theorems are about those functions. Concurrency is a step relation. Every lemma carries
`{:induction false}`, so each proof shows the induction it uses.

Findings, each with the lemma that states exactly when it happens and one that gives the input:

- A dispatched attempt can be dispatched again, exactly when a copy that a crash could bring back holds the id at an
  earlier attempt (`BarrierRepeat.RepeatIffStale`). The program gets there when an intent is submitted anew after
  `/clear`, as the autopilot's scope request, `/retry-task` and `/scope-retry` are, and a save that reached the disk
  is reported as failed (`BarrierRuns.StaleWorldIsReachable`, `BarrierRuns.ReusedIntentIsLaunchedTwice`).
- The comment at alfredo-tui/src/autopilot.rs:555-558 says that a crash loses a finish-hook call rather than
  repeating it. The code starts the hook before it saves the finish, so the call can be repeated after a restart
  exactly if that save was lost: `AutopilotRuns.FinishCallsAgainIffLost`. Within one process the promise holds.
- For the same reason a finished run comes back active without owner work when a restart finds the unfinished
  record (`AutopilotRuns.FinishedRunRevives`), and a re-entry whose save is lost lets a restart consume the same
  owner repair again (`AutopilotRuns.RepairConsumedAgainIffLost`, `AutopilotRuns.LostReentryRepeats`).
- A timing summary whose first text precedes its admission does not add up, unless nothing was counted in between
  (`Timing.PartsAddUp`, `Timing.LateAdmissionDoesNotAddUp`).

Abstractions used throughout: hashes are injective identities, texts and correlations are tokens, JSON sizes are
natural numbers that grow with the digits of a sequence, and machine integers are unbounded (no modelled counter
comes near its width; attempts of commands are bounded by the 64-bit maximum where a retry adds one).

## Model

| member | source | states |
|---|---|---|
| `Session.Session.NextSequenceValue` | alfredo-tui/src/console_log.rs:60-68 | The next number is one more than the largest on any receipt or command, found by one pass over each. |
| `Session.Session.RenumberConsoleSequences` | alfredo-tui/src/console_log.rs:78-106 | The in-place renumbering of receipts, commands and the reading anchor is `History.Renumbered`, whose properties the next rows prove. |
| `Session.Session.NextConsoleSequence` | alfredo-tui/src/console_log.rs:69-74 | Renumbers only past the cap 8192, and then numbers on from the renumbered state. |
| `Numbering.RenumberingIsOrderIsomorphism` | alfredo-tui/src/console_log.rs:75-95 | Renumbering keeps every order comparison between any two sequences of commands and receipts, fixes 0 and only 0, and enlarges nothing. |
| `Numbering.RenumberingKeepsTheReader` | alfredo-tui/src/console_log.rs:91-106 | The reader is at the same command as before, for every command, and a reader who was at none does not land on one. |
| `Numbering.RenumberingLeavesNoGaps` | alfredo-tui/src/console_log.rs:75-90 | After renumbering the sequences in use are exactly 1 to their count. |
| `Numbering.NextIsFresh` | alfredo-tui/src/console_log.rs:60-68 | The next sequence is larger than every one in use. |
| `Numbering.NextAfterRenumbering` | alfredo-tui/src/console_log.rs:69-74 | The next sequence after renumbering is exactly one more than the number of distinct sequences in use. |
| `Numbering.CapNeverRefuses` | alfredo-tui/src/console_log.rs:69-74 | With at most 512 commands and 4096 receipts the next sequence after a renumbering is at most 4609, so the cap of 8192 never refuses anything. |
| `Numbering.RenumberingKeepsValid` | alfredo-tui/src/console_log.rs:78-95 | Renumbering keeps every rule of a valid history: order, parents, uniqueness, scope turns and both budgets. |
| `Session.Session.ScanVictims` | alfredo-tui/src/console_log.rs:610-655 | The one-scan running count and byte total are a full re-measurement of what would remain, and every shorter prefix was too much. |
| `Session.Session.EvictSettledCommands` | alfredo-tui/src/console_log.rs:610-668 | The in-place eviction is `History.Evict`: refused with nothing changed, or the shortest sufficient prefix dropped, its keys retired and the anchor let go. |
| `Eviction.EvictsShortestPrefix` | alfredo-tui/src/console_log.rs:610-668 | Eviction refuses exactly when dropping every candidate is not enough; otherwise it drops the least number of oldest candidates that fits, and every smaller number did not. |
| `Eviction.AfterShrinks` | alfredo-tui/src/console_log.rs:640-655 | Each further candidate takes exactly one entry off the count and exactly its own size off the bytes. |
| `Eviction.EvictionKeepsNeeded` | alfredo-tui/src/console_log.rs:676-714 | Live entries, parents of automatic entries, the plan origin, the latest dispatch control, selection and Wayfinder entries and the entry just added survive unchanged. |
| `Eviction.EvictionDropsOnlySettled` | alfredo-tui/src/console_log.rs:676-714 | Whatever is gone was one of the dropped candidates, evictable and settled. |
| `Eviction.RefusedExactlyWhenNeeded` | alfredo-tui/src/console_log.rs:602-714 | Eviction refuses exactly when the entries that must stay (the last, live, selecting, generated plans, selections, scope turns, the latest enabling control, parents, the plan origin) do not fit by themselves; Unknown and Refused entries never cause it. |
| `Eviction.OnlyNeededIsSpared` | alfredo-tui/src/console_log.rs:635-714 | An entry that was kept although a later one went is one of those that must stay. |
| `Eviction.EvictedKeysAreRetired` | alfredo-tui/src/console_log.rs:656-664 | All keys of everything just evicted are in the retired list of 1024, however full it was. |
| `Eviction.EvictionDropsDanglingAnchor` | alfredo-tui/src/console_log.rs:661-667 | The reading anchor is kept exactly when its command is still there, and is dropped otherwise. |
| `Eviction.EvictKeepsStructure` | alfredo-tui/src/console_log.rs:427-591 | Eviction keeps every structural rule, parents before their children included. |
| `Eviction.EvictFits` | alfredo-tui/src/console_log.rs:594-598 | After a successful eviction the history is within 512 entries and 512 KiB. |
| `Session.ValidCommandStructure` | alfredo-tui/src/console_log.rs:427-591 | The single-pass checker with its sets of seen ids, correlations, turns and numbers decides exactly the declarative structure rules. |
| `Session.FreshMeansNoClash` | alfredo-tui/src/console_log.rs:440-560 | The seen-sets say fresh exactly when no earlier entry shares an id, correlation or user turn. |
| `Session.Session.JudgeCommand` | alfredo-tui/src/console_log.rs:274-325 | Judging an entry: duplicates, validity, retired keys, structure, then capacity with eviction; every refusal leaves the whole state as found. |
| `Session.Session.AdmitCommand` | alfredo-tui/src/console_log.rs:251-325 | Admission numbers the entry, judges it on the full history, and on a refusal restores commands, receipts, retired keys and anchor exactly. |
| `Session.Session.SubmitSelectionArrival` | alfredo-tui/src/console_log.rs:210-250 | A selection arrival replaces the settled arrival of its request, and changes nothing when it is refused. |
| `Admission.AdmissionKeepsHistory` | alfredo-tui/src/console_log.rs:251-325 | An admitted history is valid, ends with the new entry, and every earlier entry is still there up to its number or was settled and has all its keys retired. |
| `Admission.AdmissionAddsOne` | alfredo-tui/src/console_log.rs:251-325 | Nothing but the new entry appears. |
| `Admission.AdmissionRefusesRepeats` | alfredo-tui/src/console_log.rs:285-300 | An entry whose id or correlation is live or retired is always refused. |
| `AdmissionRules.AdmittedExactlyWhen` | alfredo-tui/src/console_log.rs:274-325 | A new entry is taken exactly if it obeys every rule beside the present ones, repeats nothing live or retired, and fits when every entry that may go has gone. |
| `AdmissionRules.RefusalSaysWhy` | alfredo-tui/src/console_log.rs:291-317 | Each refusal is given exactly for its reason, the first that applies: an id or correlation live or retired, a broken rule, a missing parent, or no room beside the entries that must stay. |
| `AdmissionRules.TakenAsAsked` | alfredo-tui/src/console_log.rs:282-290 | The entry taken stands last under the highest number, at its attempt 1, where the conversation stands or where it was told to be, with the text, intent and state it was given. |
| `AdmissionRules.AdmissionLeavesTheRest` | alfredo-tui/src/console_log.rs:318-325 | Messages, receipts and the plan origin are left alone, and the reader stays unless he follows or his entry went. |
| `Admission.ArrivalKeepsHistory` | alfredo-tui/src/console_log.rs:210-250 | An arrival loses no live entry; only earlier settled arrivals of the same request may go. |
| `AdmissionRules.OneArrivalEach` | alfredo-tui/src/console_log.rs:210-235 | After an arrival the new entry is the only arrival of its workspace and mission. |
| `Session.Session.SetCommandState` | alfredo-tui/src/console_log.rs:327-337 | Sets the state of the entry with this id and nothing else. |
| `Admission.SettingStateKeepsValid` | alfredo-tui/src/console_log.rs:327-337 | Setting a state keeps the history valid exactly when the state fits the intent and does not take an enabling outcome from a parent that a child names. |
| `Session.Session.RetryCommand` | alfredo-tui/src/console_log.rs:338-375 | A retry makes the entry Pending with its next attempt, or refuses with nothing changed. |
| `Admission.RetryKeepsValid` | alfredo-tui/src/console_log.rs:338-375 | A retried history is valid, with only that entry's attempt and state changed. |
| `Session.Session.RestoreSavedCommands` | alfredo-tui/src/console_log.rs:376-393 | Restoring makes Pending and Submitted entries Unknown and touches nothing else. |
| `Admission.RestoreKeepsValid` | alfredo-tui/src/console_log.rs:376-393 | A restored history is valid and holds no live entry. |
| `AdmissionRules.RestoredAsUnknown` | alfredo-tui/src/console_log.rs:376-393 | A restart makes exactly the Pending and Submitted entries Unknown and changes nothing else. |
| `Session.Session.ObserveTaskReceipt` | alfredo-tui/src/console_log.rs:719-737 | A receipt is recorded with the next number if it is new and fits, and otherwise nothing changes. |
| `Admission.ObservationKeepsValid` | alfredo-tui/src/console_log.rs:719-772 | Observing a receipt keeps the history valid, and the sequence cap never refuses one. |
| `AdmissionRules.ObservedExactlyWhen` | alfredo-tui/src/console_log.rs:719-732 | A receipt is recorded exactly if no reply runs and all receipts with it obey their rules. |
| `AdmissionRules.ObservedIsLast` | alfredo-tui/src/console_log.rs:732-737 | An observed receipt is the last, as it was seen, under a number above all others; nothing else changes but numbers. |
| `Session.Session.ApplyNote` | alfredo-tui/src/compaction.rs:395-425 | The two loops over receipts and commands move every position back by the cut, as `History.EndSummary` says, and keep the history valid. |
| `Admission.NoteKeepsValid` | alfredo-tui/src/compaction.rs:413-420 | A note in place of the oldest turns keeps every rule of the history and both budgets, and changes nothing of an entry but its position. |
| `AdmissionRules.NoteReplaces` | alfredo-tui/src/compaction.rs:395-420 | A note in time replaces exactly the first messages and moves every receipt and command back by as many, to the start at most. |
| `AdmissionRules.SummaryIsAwaitedWhen` | alfredo-tui/src/compaction.rs:341-375 | A summary is awaited exactly after it was asked for with nothing running, no scope turn and an older turn to replace, until it ends. |
| `Session.Session.ClearConversation` | alfredo-tui/src/compaction.rs:446-478 | `/clear` is refused unchanged while a reply runs, a summary is awaited, an entry is live, or a plan draft waits, in this order; otherwise the conversation starts afresh. |
| `AdmissionRules.ClearedExactlyWhen` | alfredo-tui/src/compaction.rs:446-478 | `/clear` is refused exactly while a reply, a summary, a live entry or the pending draft would be lost, and otherwise leaves nothing. |
| `Barrier.Autosave.ContainsSavedCommand` | alfredo-tui/src/conversations.rs:538-551 | Found exactly when a completed save of that session holds this exact Pending entry. |
| `Barrier.Autosave.CheckpointNow` | alfredo-tui/src/conversations.rs:552-584 | One background save at a time; a finished one becomes the saved snapshot, a failed one is reported and forgotten. |
| `Barrier.Autosave.Finish` | alfredo-tui/src/conversations.rs:585-605 | The older save is joined first: what the disk holds in the end is the final snapshot, or what the older save left if the final one fails, as in the step relation. |
| `BarrierSafety.RunsStayValid` | alfredo-tui/src/headless.rs:625-660 | Over every run of submissions, arrivals, retries, outcomes, compactions, clears, saves, dispatches, crashes and restores, every session in memory, in flight and on disk is valid. |
| `BarrierSafety.LaunchesOnlyFromCompletedSaves` | alfredo-tui/src/command_staging.rs:256-273 | Over every run, whatever was dispatched stood Pending, with that very attempt, in a save that had completed before. |
| `BarrierOutcomes.LetThroughExactlyWhenSaved` | alfredo-tui/src/command_staging.rs:256-273 | A Pending entry is let through exactly if it is the one that waits and the last acknowledged save of its session holds it as it stands. |
| `BarrierOutcomes.DispatchSettles` | alfredo-tui/src/headless.rs:641-657 | An accepted dispatch leaves the waiting entry Submitted, a refused one Refused; either frees the barrier, is logged once, and changes nothing else. |
| `BarrierOutcomes.WithdrawalRefuses` | alfredo-tui/src/main.rs:986-1035 | A withdrawal, by hand or because the save failed, refuses the waiting entry, frees the barrier and changes nothing else. |
| `BarrierOutcomes.SubmissionWaits` | alfredo-tui/src/main.rs:2250-2285 | An accepted submission is the last entry of its conversation, Pending at attempt 1, and waits at the barrier. |
| `BarrierOutcomes.OneWaitsAtATime` | alfredo-tui/src/main.rs:2142-2147 | While an entry waits, nothing else is asked for, and a refused submission changes nothing. |
| `BarrierOutcomes.RetryWaits` | alfredo-tui/src/console_log.rs:338-375 | A retry makes its entry Pending under the next attempt and waiting, exactly if nothing waits and the entry may be retried. |
| `BarrierOutcomes.OutcomesAreRecorded` | alfredo-tui/src/headless.rs:500-560 | Whatever became of a submitted entry is recorded on it, if it fits the intent and no launch relies on the entry, and nothing else changes. |
| `BarrierOutcomes.PollAcknowledges` | alfredo-tui/src/conversations.rs:552-584 | A poll acknowledges a good save and starts the next as soon as memory differs from what is saved. |
| `BarrierOutcomes.AcceptedComesBackUnknown` | alfredo-tui/src/headless.rs:625-660 | A whole course: a submission is saved, dispatched and accepted, is Submitted, and comes back Unknown after a crash. |
| `BarrierOutcomes.DiskComesBack` | alfredo-tui/src/conversations.rs:271-300 | After a crash there is what the disk held: live entries Unknown, running replies ended, all else as saved, and nothing waits at the barrier. |
| `BarrierOutcomes.DeclinedIsRefused` | alfredo-tui/src/command_staging.rs:36-90 | An intent that is declined is recorded as the last entry, Refused, and nothing waits for it. |
| `BarrierRepeat.ReachableIsSound` | alfredo-tui/src/headless.rs:625-660 | The combined invariant holds in every reachable state. |
| `BarrierRepeat.RepeatIffStale` | alfredo-tui/src/main.rs:978-1060 | The same attempt of an id that stays live or retired can be dispatched a second time, by steps the program takes, exactly if at the first dispatch the disk or the running save still holds that id at an earlier, unrecorded attempt. |
| `BarrierRuns.StaleWorldIsReachable` | alfredo-tui/src/main.rs:2142-2285 | A concrete run of the program in which an entry is let through while the disk holds it one attempt earlier: its intent was submitted again after `/clear`, and one save reached the disk but was reported as failed. |
| `BarrierRuns.ReusedIntentIsLaunchedTwice` | alfredo-tui/src/conversations.rs:517-526 | So one attempt of an id known all the time in between can be dispatched twice. |
| `BarrierRuns.CarefulRunsAreSound` | alfredo-tui/src/headless.rs:600-660 | In runs that never reuse an intent whose copies are still remembered, memory, running save and disk stay ordered by age and nothing submitted is lost from them. |
| `BarrierRuns.NoAttemptIsLaunchedTwice` | alfredo-tui/src/headless.rs:639-657 | In such runs no (id, attempt) is dispatched twice while the id is live or retired. |
| `BarrierRuns.SubmittedSurvivesCrash` | alfredo-tui/src/console_log.rs:376-393 | A Submitted entry comes back from every crash, as Unknown or with its recorded outcome. |
| `BarrierRuns.LiveEntryIsKept` | alfredo-tui/src/console_log.rs:676-714 | No admission, eviction, arrival, compaction or `/clear` loses a live entry or changes its state behind its back. |
| `BarrierRuns.RestartLaunchesNothing` | alfredo-tui/src/conversations.rs:271-300 | After a restart nothing is dispatched until something is submitted or retried anew. |
| `Families.SettleAll` | alfredo-tui/src/autopilot.rs:2375-2476 | The settlement loop over the run's families in order is the recursive settlement used by the next rows. |
| `Families.NextMatching` | alfredo-tui/src/dispatch.rs:63-90 | Dispatch picks the first launchable task, and none exactly when there is none; what an architecture review or the scope bars is never launched. |
| `Liveness.SuccessIsSourced` | alfredo-tui/src/autopilot.rs:2419-2424 | A family that succeeded can be composed as a dependency. |
| `Liveness.OpenFamilyWaits` | alfredo-tui/src/autopilot.rs:1959-2066 | With no command, no worker and nothing to launch, an open family is barred or waits on a dependency whose family is not done. |
| `Liveness.FirstOpenIsHeld` | alfredo-tui/src/autopilot.rs:2411-2418 | Following the waiting down the dependency order ends at an open family that is barred or depends on a run the owner cancelled. |
| `Liveness.IdleMeansSettled` | alfredo-tui/src/autopilot.rs:1959-2066 | The running phase never deadlocks: in an idle state every family is settled, exactly unless an open one is barred by an architecture review or the scope, or depends on one whose run the owner cancelled and has not resumed. |
| `Liveness.RepairsStayBelowLimit` | alfredo-tui/src/autopilot.rs:2011-2017 | An automatic repair is chosen only for a family whose counted repairs are below its limit. |
| `Liveness.RootsAre` | alfredo-tui/src/autopilot.rs:174-179 | The families of a run are exactly its planned tasks and the follow-ups adopted after them. |
| `Liveness.LatestApprovalIsLast` | alfredo-tui/src/dispatch.rs:53-58 | The approval that counts is the last approval or requeue of the task in the ledger. |
| `Progress.MeasureDrops` | alfredo-tui/src/autopilot.rs:1959-2066 | Every effective step of the loop, on any family, lowers one measure over repairs left and head status. |
| `Progress.WorkKeepsStore` | alfredo-tui/src/autopilot.rs:1959-2066 | Every such step keeps the store's rules, so the measure applies to whole runs. |
| `Progress.EffectiveWorkIsBounded` | alfredo-tui/src/autopilot.rs:1959-2066 | The length of any run of effective steps plus the measure it ends with is at most the measure it starts with. |
| `Progress.ChosenIsAllowed` | alfredo-tui/src/autopilot.rs:1961-2026 | What the running step chooses for a head the store accepts in that head's status: approving a proposed task, reviewing a finished one, resolving an accepted repair, recovering an interrupted run, requeueing a cancelled one. Only a repair may be refused. |
| `Progress.AllowedIsChosen` | alfredo-tui/src/autopilot.rs:1961-2026 | And for every head the store would let go on, exactly that command is its own. |
| `Progress.DispatchIsAskedWhenNeeded` | alfredo-tui/src/autopilot.rs:1954-2046 | The first open family with a command of its own decides; dispatch is asked for exactly when there is none, it is off, and a head waits only for it. |
| `Progress.SettledExactlyWhen` | alfredo-tui/src/autopilot.rs:2411-2476 | A family is open exactly while the owner holds it or it is unresolved and its head can go on, has succeeded exactly if it is resolved, and waits for a resume exactly if its run was cancelled. |
| `Progress.RepairsAreCounted` | alfredo-tui/src/autopilot.rs:2395-2408 | What counts against a limit is the number of repairs of a failed task that were not cancelled before they started. |
| `Progress.SuccessNamesItsResult` | alfredo-tui/src/autopilot.rs:2419-2424 | A family that succeeded names an accepted task of its own: the recorded resolution, or else its root. |
| `Progress.LaunchIsSafe` | alfredo-tui/src/dispatch.rs:63-90 | What dispatch launches is approved under a policy and not tried since, is barred by nothing, and has an accepted result for every dependency. |
| `Progress.ReadyIsLaunched` | alfredo-tui/src/dispatch.rs:63-90 | A task that meets all this is launched unless an earlier one is. |
| `Progress.LoopStepIsEffective` | alfredo-tui/src/autopilot.rs:1959-2066 | A command the running step chooses and the store accepts, a launch dispatch picks on an open family, and the end of its worker are effective: on the head of an unresolved family, a repair only below its limit. |
| `Progress.LoopComesToAnEnd` | alfredo-tui/src/autopilot.rs:1959-2066 | However workers, dispatch and the controller's view change between its steps, the loop takes at most as many as the measure, and three more for every run of an earlier process it recovers. |
| `Progress.MeasureBound` | alfredo-tui/src/autopilot.rs:45-48 | The measure is bounded by families and repair limit, so the loop comes to an end. |
| `Autopilot.Autopilot.constructor` | alfredo-tui/src/autopilot.rs:498-548 | Opening restores a saved active run paused, turns a finishing one back into running, and starts without job or counters. |
| `Autopilot.Autopilot.TickOnce` | alfredo-tui/src/autopilot.rs:1448-1541 | The in-place tick (poll the integration, halt on contention, re-enter, decide, count the attempt) is the function `AutopilotState.Tick` of the state before. |
| `Autopilot.Autopilot.ReenterForRepair` | alfredo-tui/src/autopilot.rs:1215-1294 | Re-entry with its loops over tasks and families: the watermark moves, the repaired families get the owner's limit, and the run resumes, exactly as specified. |
| `Autopilot.Autopilot.ReopenRun` | alfredo-tui/src/autopilot.rs:1177-1213 | A finishing run is marked stale once, a done run starts over, anything else is left alone. |
| `Autopilot.Autopilot.AdoptTask` | alfredo-tui/src/autopilot.rs:1162-1175 | A follow-up is adopted once, and reopens the run. |
| `Autopilot.Autopilot.FailWithNext` | alfredo-tui/src/autopilot.rs:1642-1715 | Failing records phase, finish and watermark, then calls the hook. |
| `Autopilot.Autopilot.CompleteRun` | alfredo-tui/src/autopilot.rs:2163-2300 | Completing records phase, finish, watermark and branch, then calls the hook. |
| `Autopilot.Autopilot.DecideRunning` | alfredo-tui/src/autopilot.rs:1911-2137 | One running step: recovered runs, stop causes, the next command, or integration once everything is settled and no worker runs. |
| `Autopilot.Autopilot.ResumeRun` | alfredo-tui/src/autopilot.rs:952-1005 | A resume clears pause, counters and recoveries and lets cancelled runs be retried. |
| `Autopilot.Autopilot.StartRun` | alfredo-tui/src/autopilot.rs:811-920 | A new run begins exactly when none is active, or the active one is paused without workers, and then from a fresh record. |
| `Autopilot.Autopilot.PauseRun` | alfredo-tui/src/autopilot.rs:921-932 | Pausing stops an active run and touches nothing else. |
| `AutopilotChoices.NextCommandIsSubmitted` | alfredo-tui/src/autopilot.rs:1483-1541 | A running step submits the next command of the run and nothing else; it pauses instead if the command cannot be prepared or was tried too often. |
| `AutopilotChoices.LeavesExactlyWhenDone` | alfredo-tui/src/autopilot.rs:2058-2068 | The run leaves its running phase, other than by a stop, exactly when there is no command, no worker and no open family. |
| `AutopilotChoices.NoChoiceWhileBusy` | alfredo-tui/src/autopilot.rs:1452-1476 | Contention pauses a live run without a submission; while a command is unanswered or there is no snapshot, nothing is submitted. |
| `AutopilotChoices.StopEndsTheRun` | alfredo-tui/src/autopilot.rs:1920-1953 | A cause no repair can help ends the run at once, re-entrant exactly for the unreachable model server. |
| `AutopilotChoices.StagesFollow` | alfredo-tui/src/autopilot.rs:1476-1482 | The stages before the tasks run follow one by one, and the last one says which tasks to run. |
| `AutopilotChoices.StagesMayFail` | alfredo-tui/src/autopilot.rs:1476-1541 | Otherwise a stage waits, pauses the run on what it cannot read, ends it for good, or submits its one request. |
| `AutopilotChoices.RevisionIsPlanned` | alfredo-tui/src/autopilot.rs:1297-1306 | A revision by the owner before the draft is saved takes the run back to planning and changes nothing else. |
| `AutopilotChoices.IntegrationEndsTheRun` | alfredo-tui/src/autopilot.rs:2139-2200 | An integration that comes back ends the run, naming its branch exactly if it was built; a stale one is only discarded. |
| `AutopilotChoices.LateWorkIsNotLost` | alfredo-tui/src/autopilot.rs:1179-1192 | Owner work that arrives while the branch is built discards the integration: the run goes on in a new round. |
| `AutopilotChoices.AdoptedIsAFamily` | alfredo-tui/src/autopilot.rs:1162-1175 | An adopted follow-up is one of the run's families from then on, none is lost, and a done run is live again. |
| `AutopilotChoices.OnlyRepairedAreLimited` | alfredo-tui/src/autopilot.rs:1254-1275 | An owner repair moves only the limits of the repaired families: to what is counted, or after a re-entrant stop to one more than the run may repair by itself. |
| `AutopilotChoices.RecoveredRunGoesOn` | alfredo-tui/src/autopilot.rs:1996-2003 | A run whose recovery was submitted and is then recorded as cancelled is run again without the owner. |
| `AutopilotChoices.ResumeReopensCancelled` | alfredo-tui/src/autopilot.rs:973-1003 | A resumed run is live in its phase with fresh counters, and no family of it waits for a resume any more. |
| `AutopilotChoices.StartsAfresh` | alfredo-tui/src/autopilot.rs:811-920 | A started run is live with nothing of an earlier one, on the given tasks, from the first stage, or at saving an open draft. |
| `AutopilotRuns.FinishedRunRevives` | alfredo-tui/src/autopilot.rs:1215-1278 | For every move, saved or not, restarts included: a run that is not active becomes active exactly by a new goal, by adoption or reopening of a done run, by an owner repair newer than the watermark of a done or re-entrant failed run, or by a restart onto an unfinished record; otherwise it stays finished and submits nothing. |
| `AutopilotRuns.FinishStandsUntilCaused` | alfredo-tui/src/autopilot.rs:1162-1294 | Over every run of moves a finish is left undisturbed exactly while none of these causes occurs. |
| `AutopilotRuns.SavedFinishStands` | alfredo-tui/src/autopilot.rs:500-548 | A finish that reached the disk is disturbed exactly by the owner's work, whatever later saves fail and restarts come; until then nothing is submitted and no hook is called. |
| `AutopilotChoices.RevivedIsLive` | alfredo-tui/src/autopilot.rs:1195-1294 | Coming back from a finish, the run is live in its running phase, with its counters cleared, its hook unspent and its branch kept. |
| `AutopilotChoices.WakesExactlyWhen` | alfredo-tui/src/autopilot.rs:1215-1250 | A finished run wakes exactly for a repair newer than its finish, not cancelled and of one of its families, after a finish that was done or failed for the model server alone. |
| `AutopilotRounds.RoundsNeverRepeat` | alfredo-tui/src/autopilot.rs:1177-1213 | Over every run of one goal within a process, the branches built, those of integrations discarded as stale included, have strictly increasing rounds after the branch that existed before. |
| `AutopilotRounds.BranchStaysBehind` | alfredo-tui/src/autopilot.rs:1195-1209 | In every reachable record, lost saves and restarts included, the recorded branch has an earlier round than the next one to build. |
| `AutopilotRuns.RepairConsumedOnce` | alfredo-tui/src/autopilot.rs:1225-1245 | An owner repair re-enters a run at most once: for good when the save of that re-entry reached the disk, and within one process in any case. |
| `AutopilotRuns.RestartConsumesIffLost` | alfredo-tui/src/autopilot.rs:1225-1278 | After a re-entry and a restart the same repair is consumed again exactly if the save of the re-entry was lost and the record on the disk still wakes for it. |
| `AutopilotRuns.RepairConsumedAgainIffLost` | alfredo-tui/src/autopilot.rs:1225-1278 | When the finish it wakes was saved, a repair can be consumed again at any later time exactly if the save of its re-entry was lost. |
| `AutopilotRuns.LostReentryRepeats` | alfredo-tui/src/autopilot.rs:1225-1278 | Such a run exists, given in full. |
| `AutopilotRuns.RestoredRunIsQuiet` | alfredo-tui/src/autopilot.rs:500-548 | A run restored active submits nothing, finishes nothing and calls no hook before it is resumed or replaced, over any steps and restarts. |
| `AutopilotRuns.HooksMatchEndings` | alfredo-tui/src/autopilot.rs:555-581 | Within one process a configured finish hook is called exactly once per finish, over every run, and without one nothing is called. |
| `AutopilotRuns.FinishCallsAgainIffLost` | alfredo-tui/src/autopilot.rs:555-581 | The hook is started before the finish is saved. After a finish and a restart it can be called again without owner work exactly if that save was lost and the disk holds the unfinished run; a saved finish comes back finished with its hook spent. |
| `AutopilotLimits.SubmissionsSpend` | alfredo-tui/src/autopilot.rs:1483-1541 | Decisions among k keys without effect are submitted at most 15 k times before the loop pauses: a counter of attempts and refusals grows with every submission. |
| `AutopilotLimits.OneDecisionRepeatsFifteenTimes` | alfredo-tui/src/autopilot.rs:1483-1541 | One decision without effect is submitted at most fifteen times. |
| `AutopilotLimits.FifteenIsReached` | alfredo-tui/src/autopilot.rs:1483-1541 | Fifteen is reached, so the bound is exact. |
| `AutopilotLimits.OwnerRepairIsLimited` | alfredo-tui/src/autopilot.rs:1254-1275 | An owner repair of a done run sets its family's limit to what is counted then, and that very tick already chooses no automatic repair of it. |
| `AutopilotLimits.OwnerRepairIsTheLast` | alfredo-tui/src/autopilot.rs:2400-2434 | From then on, while the run stays active and no repair is cancelled before it started, no automatic repair of that family is ever submitted. |
| `AutopilotLimits.StepFits` | alfredo-tui/src/autopilot.rs:187-204 | Every operation keeps the saved record within what opening accepts, so a run can always be opened again. |
| `AutopilotLimits.IdleLoopFinishes` | alfredo-tui/src/autopilot.rs:2058-2137 | A live running loop with nothing left to do keeps running exactly if an open family is held up by the owner, the review or the scope; otherwise it integrates if some family succeeded and a baseline is recorded, and is done if not. |
| `Publication.CallsNeverMoveRefs` | alfredo-tui/src/branch.rs:77-117 | No step of any call changes or removes a ref: it adds its own at its own commit, and only where there was none. |
| `Publication.NextKeepsSound` | alfredo-tui/src/branch.rs:54-167 | Every event of any interleaving keeps the invariant on all calls and the ledger. |
| `Publication.OneReceiptPerBranch` | alfredo-tui/src/branch.rs:129-163 | Over every interleaving of calls, crashes, outside ref changes and other receipts, a branch has at most one receipt. |
| `Publication.DeniedCreatedNothing` | alfredo-tui/src/branch.rs:25-80 | A final refusal means that no step of this call created a ref. |
| `Publication.PublishedMeansDone` | alfredo-tui/src/branch.rs:118-157 | Success means that the ref was at the commit at some moment and that the ledger holds the receipt. |
| `Publication.ReceiptsAreTrue` | alfredo-tui/src/branch.rs:118-163 | The ledger never claims a branch that did not exist: every new branch receipt names a ref that was at its commit. |
| `Publication.UndisturbedCall` | alfredo-tui/src/branch.rs:54-157 | What an undisturbed call does: it is denied with nothing changed exactly if its correlation answered another request, its state is gone, or its name is symbolic or taken; otherwise it is published, its branch at its commit, every other ref as before, and one receipt for it. |
| `Publication.OvertakenCallsEnd` | alfredo-tui/src/branch.rs:51-70 | Whatever happens between two steps of a call: if the ledger moved before it created anything it is denied, unless its branch is already recorded; if its correlation was given to something else it ends uncertain; neither changes anything. |
| `Publication.RepeatingReconciles` | alfredo-tui/src/branch.rs:87-157 | A call that dies after any of its steps and is repeated ends as if never interrupted: published, with the same refs and one receipt in all. |
| `Publication.TroubleIsOutlasted` | alfredo-tui/src/branch.rs:127-166 | A confirmed call outlasts up to 31 failing reads of the ledger; after 32 it ends uncertain with its ref in place. |
| `Composition.Repository.ComposeInputs` | alfredo-tui/src/dependencies.rs:108-168 | The whole call: it refuses as a conflict exactly if a needed merge conflicts, existing commits stay, success contains every input, and the closing check never refuses. |
| `Composition.Repository.JoinAll` | alfredo-tui/src/dependencies.rs:121-161 | The in-place loop that skips, takes over or merges each candidate is `Compose`, up to and including the first merge that does not apply cleanly. |
| `Composition.FailsExactlyOnConflict` | alfredo-tui/src/dependencies.rs:127-134 | Composition fails exactly if for some k the first k candidates compose to a commit that needs a merge with the next and the two conflict; without conflicts it never does. |
| `Composition.ComposedContainsAll` | alfredo-tui/src/dependencies.rs:121-167 | The composed commit has the starting baseline and every candidate as ancestors. |
| `Composition.ComposedAddsNothingElse` | alfredo-tui/src/dependencies.rs:121-161 | Among existing commits it reaches exactly what its inputs reach. |
| `Composition.MergesAreNeeded` | alfredo-tui/src/dependencies.rs:121-161 | Every commit made joins a candidate with a baseline neither of which contained the other, and never two that conflict. |
| `Composition.GraphOnlyGrows` | alfredo-tui/src/dependencies.rs:121-161 | No existing commit changes, and at most one merge is made per candidate. |
| `Composition.ComposingAgainChangesNothing` | alfredo-tui/src/dependencies.rs:106-126 | Contained and diamond inputs are reused: composing the same inputs again returns the same commit and makes none. |
| `Calendar.CivilIsCounted` | alfredo-tui/src/execution.rs:2264-2275 | For every day from 1970-01-01 on, the closed form is the date reached day by day under the Gregorian leap rule, and it is a valid date. |
| `Calendar.EveryDateIsReached` | alfredo-tui/src/execution.rs:2264-2275 | Every valid later date is reached, on the day its day number says. |
| `Calendar.DatesIncrease` | alfredo-tui/src/execution.rs:2264-2275 | Later days have strictly later dates. |
| `Calendar.TimestampIsCounted` | alfredo-tui/src/execution.rs:2258-2282 | For every second count the timestamp is the one reached second by second, with all fields in range. |
| `Calendar.YearFound` | alfredo-tui/src/execution.rs:2267-2270 | The year formula finds the March year that holds the day, for every day of the 400-year era. |
| `JsonText.TextIsRead` | alfredo-tui/src/execution.rs:2188-2214 | Reading undoes quoting for every string, with surrogate pairs for characters beyond the basic plane, whatever follows. |
| `JsonText.OnlyPrintable` | alfredo-tui/src/execution.rs:2188-2214 | The printed string is printable ASCII throughout. |
| `CanonicalJson.PlainIsRead` | alfredo-tui/src/execution.rs:2216-2242 | A parser undoes the printer for every value, with any text behind it. |
| `CanonicalJson.CanonKeeps` | alfredo-tui/src/execution.rs:2231-2233 | Sorting the keys keeps the meaning of a value, and orders every object in it. |
| `CanonicalJson.CanonicalUnique` | alfredo-tui/src/execution.rs:2231-2233 | Two sorted values with the same meaning are equal. |
| `CanonicalJson.PrintIsRead` | alfredo-tui/src/execution.rs:2216-2242 | The canonical text parses back to the value with its keys sorted, which means the same. |
| `CanonicalJson.PrintsSameIffSameMeaning` | alfredo-tui/src/execution.rs:2216-2242 | Two values print the same text exactly when they mean the same, objects being finite maps whatever the order of their keys. |
| `Capture.NextSound` | alfredo-tui/src/execution.rs:1277-1308 | Every atomic step of any capture thread keeps the accounting of kept and counted bytes and of the flag. |
| `Capture.CaptureIsExact` | alfredo-tui/src/execution.rs:1277-1308 | For any number of threads and any interleaving, the bytes retained are min(limit, bytes read), the flag is set exactly when more was read, and each output is a prefix of its stream. |
| `Capture.CaptureStaysWithinLimit` | alfredo-tui/src/execution.rs:1277-1308 | At every moment the retained bytes are within the limit. |
| `Capture.Outcome.AppendDiagnostic` | alfredo-tui/src/execution.rs:1250-1259 | As much of the diagnostic, on its own line, as the budget allows, and never less of what was there. |
| `Capture.FinishRun` | alfredo-tui/src/execution.rs:1213-1235 | After the bounded diagnostic, stdout plus stderr is still at most the limit, and valid output is kept in full. |
| `Notes.CutTextFits` | alfredo-tui/src/compaction.rs:140-159 | The cut text never passes its byte limit, keeps a prefix, wastes less than one character, and states exactly the bytes omitted when the marker fits. |
| `Notes.CleanSummaryIsStorable` | alfredo-tui/src/compaction.rs:195-202 | Whatever a model wrote, the cleaned note is storable; none is left exactly of text without a visible character. |
| `Notes.CleanSummaryKeepsTheText` | alfredo-tui/src/compaction.rs:195-202 | The note is what the model wrote without controls and without the blanks around it, cut to its limit: nothing visible before or after is lost. |
| `Compaction.ShiftIsUniform` | alfredo-tui/src/compaction.rs:237-243 | What is found at an index after the shift was found at that index plus the cut, and nothing else is there. |
| `Compaction.ShiftsAdd` | alfredo-tui/src/compaction.rs:237-243 | Two compactions move everything as one compaction of both cuts would. |
| `Compaction.SurvivorsKeepTheirMarks` | alfredo-tui/src/compaction.rs:396-420 | Every surviving message keeps its sources, attachments, tool steps, marks and interrupted flag at index minus cut. |
| `Compaction.PositionsMoveBack` | alfredo-tui/src/compaction.rs:396-420 | Receipts, commands and dispatch rows move back by the cut, to the start at most; refusal rows follow their prompt or go with it. |
| `Compaction.ShiftedFits` | alfredo-tui/src/compaction.rs:396-425 | After the shift all positions are in range, and receipt and command positions are even and in order. |
| `Compaction.Chat.MakePlan` | alfredo-tui/src/compaction.rs:286-336 | A plan exists exactly if more than one turn is complete; two turns are kept if they fit with a note and the prompt, one otherwise; the transcript is the earlier note and the replaced turns without interrupted ones. |
| `Compaction.LastTurnsAreKept` | alfredo-tui/src/compaction.rs:286-320 | Of the complete turns the last two are kept if there are older ones and the two fit beside a note and the prompt, else only the last; a turn being written is never cut. |
| `Compaction.TranscriptIsTold` | alfredo-tui/src/compaction.rs:300-330 | The transcript tells the replaced turns in order: prompt, what the tools did, reply; nothing of an interrupted one. |
| `Compaction.Chat.StartCompaction` | alfredo-tui/src/compaction.rs:341-359 | Starts exactly when nothing runs, no scope turn exists and something can be replaced, and the plan fits the history it was made for. |
| `Compaction.Chat.FinishCompaction` | alfredo-tui/src/compaction.rs:361-431 | A late or failed result changes no history; an applied one drops the cut, shifts everything and stores the note; twice the summarised turns plus the message count never changes. |
| `Compaction.NoteIsStorable` | alfredo-tui/src/compaction.rs:379-394 | The storage check of a made note never fails. |
| `ActivityWindow.SameKeySameInput` | alfredo-tui/src/activity.rs:283-297 | Over append-only logs equal cache keys mean equal inputs. |
| `ActivityWindow.View.Refresh` | alfredo-tui/src/activity.rs:283-304 | The cached entries are a fresh projection, rebuilt only when their inputs changed. |
| `ActivityWindow.NewestFirst` | alfredo-tui/src/activity.rs:297-302 | The list shows what the two logs hold for the query, approvals before receipts, and each log backwards. |
| `ActivityWindow.PartitionPoint` | alfredo-tui/src/activity.rs:331-340 | The halving search finds the first start beyond the bound. |
| `ActivityWindow.AddUp` | alfredo-tui/src/activity.rs:305-321 | The starts are the row counts of the entries added up. |
| `ActivityWindow.BoundedIsRight` | alfredo-tui/src/activity.rs:331-347 | Entries chosen by the two bounds show exactly the wanted rows of the whole wrapped list, with at most one entry a row. |
| `ActivityWindow.View.WindowFor` | alfredo-tui/src/activity.rs:267-349 | Whatever the offset, the window shows the rows of the simple rendering from the clamped offset on; only an entry of more than 65535 rows can outrun the row offset. |
| `Timing.SpanIsCounted` | alfredo-tui/src/client_timing.rs:52-61 | A span is the number of instants at which nobody waited for the owner, equals its length minus its overlaps, and never saturates. |
| `Timing.SummaryMeans` | alfredo-tui/src/client_timing.rs:83-104 | Total, queue, first text and stream are the counted instants between start, admission, first text and end, in this order, and each is there exactly when its instants are. |
| `Timing.PauseIsLeftOut` | alfredo-tui/src/client_timing.rs:37-48 | A pause and its end leave out exactly the instants between them. |
| `Timing.FirstOneCounts` | alfredo-tui/src/client_timing.rs:62-77 | Of several admissions, first texts or ends the first counts, and none after the end. |
| `Timing.PartsAddUp` | alfredo-tui/src/client_timing.rs:83-104 | Queue, first text and stream add up to the total exactly when no counted time lies between the first text and a later admission; always when admission came first. |
| `Timing.LateAdmissionDoesNotAddUp` | alfredo-tui/src/client_timing.rs:62-104 | Calls that reach such a record: a first text, then the admission, then the end; the parts exceed the total by the time between the first two. |
| `Timing.CallsKeepWithin` | alfredo-tui/src/client_timing.rs:37-82 | Over any calls with a monotone clock the pauses stay disjoint with at most the last one open, and every instant lies between start and end. |
| `Timing.WaitingAddsUp` | alfredo-tui/src/client_timing.rs:83-104 | Before any text, queue and waiting time add up to the total. |
| `Timing.FinishedIsFrozen` | alfredo-tui/src/client_timing.rs:38-82 | A finished summary never changes, over any sequence of later calls and whenever it is read. |
| `Timing.Stopwatch.PauseAt` | alfredo-tui/src/client_timing.rs:37-42 | Opens a pause unless finished or paused; the record stays in order. |
| `Timing.Stopwatch.ResumeAt` | alfredo-tui/src/client_timing.rs:43-48 | Closes the open pause, if any; none is open afterwards. |
| `Timing.Stopwatch.AdmitAt` | alfredo-tui/src/client_timing.rs:62-66 | Only the first admission before the finish is kept. |
| `Timing.Stopwatch.TextAt` | alfredo-tui/src/client_timing.rs:70-74 | Only the first text before the finish is kept. |
| `Timing.Stopwatch.FinishAt` | alfredo-tui/src/client_timing.rs:75-77 | Only the first finish is kept. |
| `Timing.Stopwatch.SpanOf` | alfredo-tui/src/client_timing.rs:52-61 | The loop over the pauses computes the counted instants. |
| `AgentChain.Prepared.Request` | alfredo-tui/src/agent.rs:280-319 | A request continues the retained history or starts afresh over budget, is refused exactly for a prompt over its budget, and leaves room for an answer of 128 KiB. |
| `AgentChain.Conversation.Write` | alfredo-tui/src/agent.rs:352-394 | The exchange is retained exactly if it is within the message limits; the file limit never refuses it. |
| `AgentChain.AnswersAreRetained` | alfredo-tui/src/agent.rs:286-300 | An answer within the answer limit is always retained behind its request. |
| `AgentChain.ChainIsValid` | alfredo-tui/src/agent.rs:90-99 | Over every chain of runs the retained conversation alternates, is complete and bounded, and is bound to the run that began it. |
| `AgentChain.ChainExtends` | alfredo-tui/src/agent.rs:280-394 | Each run extends what it continues as a prefix under the same agent, or starts with its own prompt, and loses nothing within the answer limit. |
| `AgentChain.GoesOnExactlyWhen` | alfredo-tui/src/agent.rs:147-190 | A conversation goes on exactly while nothing calls for a fresh agent, its last answer is whole, and history and prompt leave room for an answer; otherwise the prompt stands alone. |
| `AgentChain.CutAnswersAreNeverReplayed` | alfredo-tui/src/agent.rs:184-189 | At no run of any chain, however late, is an answer that was cut short sent again: what precedes the prompt are the whole exchanges of earlier runs, in order. |
| `AgentChain.Run` | alfredo-tui/src/agent.rs:276-394 | One run through both objects is one step of the chain. |
| `AgentChain.RejectionCount` | alfredo-tui/src/agent.rs:106-145 | The bounded loop up the repair lineage counts every rejection as far as the last architect revision. |
| `AgentChain.LineageIsCounted` | alfredo-tui/src/agent.rs:106-145 | Every rejected task of the lineage, as far as the last architect revision, counts once. |
| `ArgvDisplay.LineIsRead` | alfredo-tui/src/argv_display.rs:8-20 | Every argv can be read back from its one-line display, whatever its arguments hold. |
| `ArgvDisplay.DifferentArgvsLookDifferent` | alfredo-tui/src/argv_display.rs:5-20 | Two argvs read the same exactly if they are equal. |
| `TabDisplay.TabsAs` | alfredo-tui/src/dashboard.rs:111-141 | The loop with its running column is the recursive encoding. |
| `TabDisplay.TabsEndOnStops` | alfredo-tui/src/dashboard.rs:93-102 | After any text a tab is drawn by one to four columns, up to a multiple of four. |
| `TabDisplay.CountedIsDrawn` | alfredo-tui/src/dashboard.rs:111-141 | The columns counted are the columns drawn. |
| `TabDisplay.ShownIsRead` | alfredo-tui/src/dashboard.rs:104-110 | The exact text is read back from what is shown exactly if it does not hold the literal escape. |
| `TabDisplay.OneTextPerLook` | alfredo-tui/src/dashboard.rs:104-141 | Among the texts that look alike exactly one holds no escape, and reading finds it; so a text with the escape always has another one of the same look. |

## Left out

- Terminal rendering, key handling, footers, notices and report texts: presentation only.
- Temporary files, syncing, permissions, Git and process calls: a save is one atomic replacement whose outcome is a parameter, a ref update is one compare-and-set, a command's success is a parameter of its step.
- Process signalling, `/proc` scanning, argv qualification and path canonicalisation: they depend on the host.
- Older conversation schemas and migration: the rules modelled are those of the current schema.
- Recovery of planner outcomes from a saved draft at restore, and reconciliation of dispatch runs: outcomes recorded after the fact are steps that may happen at any time, limited to states valid for the intent that do not take an enabling outcome from a parent a child names; only submitted entries become Unknown or Refused that way.
- Validation of saved files across conversations (one id in two sessions): sessions are judged one by one.
- Wayfinder staging before the barrier and the cancellation of chat turns: they only choose what is submitted, declined or withdrawn; the owner may withdraw any waiting entry here, in the program only some kinds.
- Admission.NoteKeepsValid: a note is late when a scope turn began after the summary was asked for, because that turn is a new attempt; the model asks for no scope turn instead of comparing attempts.
- BarrierRuns.NoAttemptIsLaunchedTwice: holds for runs that do not submit anew an intent whose older copies are still remembered by a save or the disk; without that premise it is false, and `BarrierRepeat.RepeatIffStale` says exactly when.
- Liveness.IdleMeansSettled: assumes that every planned task has its policy and that dependencies outside the run are already resolved, as a plan's admission demands; the environment stops of a running step (sandbox, unreachable model, oversized file) are in `AutopilotState` as parameters and not in the settlement rule.
- The architecture review route of failed tasks and held reviews: the store refuses them and no automatic command takes it; which tasks an architecture review or the scope keeps from launching is a parameter (`Control.barred`).
- AutopilotLimits.StepFits: the bounds on counts and limits; the 256 KiB bound on the size of the state file depends on the lengths of goal and report texts, which are not modelled.
- AutopilotRounds.RoundsNeverRepeat: holds within one process; after a restart an integration cut off by it is started again in the same round.
- The planning stages of the autopilot (scope drafts, planner replies, lint): what they find is a parameter of the tick, and their phases, counters and failures are modelled.
- AutopilotRuns.RepairConsumedOnce: each step makes one save that succeeds or fails at its end; intermediate saves of one tick are not told apart.
- Saved counts, clocks, report texts and interrupted-run announcements of the autopilot: they decide nothing.
- The revision of the task ledger is its number of receipts, and capacity, lock and evidence refusals of the store are outcomes a step may have.
- The input checks of `dependencies::prepare` before composition, its repair branch included: a list of equality checks against the recorded run.
- Publication.ReceiptsAreTrue: commit ids are compared as values; that Git objects exist and hold the accepted result is not part of this model.
- Composition.Repository.ComposeInputs: reading ancestry never fails; a failed Git read counts as "not an ancestor" in the program and could make it merge or refuse more than needed.
- Merge contents and the identity of merge commits: a conflict is a property of the two commits joined, and a new commit is a new position in the graph.
- Canonical numbers: taken as the tokens the printer emits; the rewriting of exponents is not modelled.
- CanonicalJson.PrintIsRead: keys are sorted first and the sorted value printed, instead of sorting inside the printing recursion.
- Capture.CaptureIsExact: a failing read makes the whole launch an error and is not modelled; live output to callbacks is not either.
- Calendar.TimestampIsCounted: milliseconds and the padded text of the fields are not modelled; the clock never reads before 1970.
- The prompt sent to summarise a conversation and the streaming of its reply: only its result matters to the history.
- ActivityWindow.View.WindowFor: the texts of entries and the wrapping of a line are parameters, with at least one row a line; the message of an empty list always counts as one row, as in the program.
- Timing.Stopwatch.SpanOf: instants are whole ticks of a monotone clock; conversion to seconds and rounding are presentation.
- AgentChain.ChainExtends: digests, bindings of files to runs and models, and the reasons for a fresh agent other than budget and cut answers are a parameter of each attempt.
- TabDisplay.ShownIsRead: the width of a character is a parameter; the escaping of hidden characters before tabs are shown is not modelled.
- Prompts, planner content, the doctor, mention reading, cleaning of worktrees, and the Python evaluation, recording, packaging and changelog scripts.
