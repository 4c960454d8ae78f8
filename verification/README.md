# The swarm registry, verified

A swarm runs many agents behind one `Registry`. Its state is four tables (`agents`, `pending`, `past`,
`pastIDs`) and a set of handles, changed in short lock-held sections by goroutines that interleave freely.
This project models those sections and proves what the repository promises about whole runs of them, the
transformations that carry a conversation over a restart, the slot gate, and the streaming merge.

The files, in reading order:

- `Common.dfy` shared definitions: options, machine integers, string order, sorting, decimal text.
- `ToolCallMerge.dfy` the merge of streamed tool calls and its `itoa` buffer (signal.go).
- `Replay.dfy`, `ReplayProtocol.dfy` the replay of a cut or interrupted history (handoff.go): the loop, and what it promises.
- `SlotGate.dfy` the resizable semaphore on a condition variable (gate.go).
- `WorkerId.dfy` minting ids and reading their number back (spawn.go, restore.go).
- `ToolScope.dfy` choosing a worker's tools (worker_tool_scope.go).
- `Handoff.dfy` one worker's tool calls and checkpoint (handoff.go).
- `Lifecycle.dfy` the registry as a value and each lock-held section as a function on it.
- `Registry.dfy` the registry and its handles as classes whose methods, loops included, are proved to compute those functions.
- `Runs.dfy` any interleaving of the sections with worker goroutines and with values callers hold between two sections.
- `Soundness.dfy` what every step keeps, and how a step may move handles and tables.
- `Settlement.dfy` the ledger of results; `StaleResume.dfy`, `ArchiveRace.dfy` where it can be broken, with the exact condition.
- `Delegation.dfy`, `Family.dfy`, `Closing.dfy`, `ScopeRuns.dfy` the delegation tree, closing a subtree, scopes down the tree.
- `Archive.dfy` the order in which the bounded archive keeps and forgets.
- `Cancellation.dfy` closes and stops that race a start.
- `Capacity.dfy`, `Timeouts.dfy`, `Streaks.dfy`, `RoleLock.dfy` the cap, the retry budget and what it counts, one worker per role.
- `Admission.dfy` who is let in by a spawn, a resume, a restore and a planting, and what the others are told.
- `Roster.dfy` what a sweep of the roster changes and what a look at it finds.
- `PendingWait.dfy` waiting for generations without consuming them, and what is reported of them.
- `HandoffRuns.dfy` the handoff over whole runs.
- `Witnesses.dfy` a run from an empty registry into each state where a promise fails.

A handle is named by its position among all handles ever made, so comparing positions is comparing
pointers. The `done` channel of a generation is a phase, a run context is a cancelled flag with the handle
and generation it was started for, and a cancel function read under the lock and called after it is an
entry in `cancelling`, or in `stopping` when even the reading happens later. A run (`Runs.IsRun`) takes any
enabled step at any point; nothing is assumed about scheduling.

Where the code does not do what its comments say, the model follows the code, a lemma gives the exact
condition, and shows that it can fail: all but the last two by a run from an empty registry.

- A resume recalls a conversation in one section and claims it in a later one. If the worker lived through
  another generation in between and was pruned, the claim issues that generation a second time, gives a
  closed caller its right to delegate back, and restarts a worker whose retry budget is used up. Generations
  stay distinct exactly when the recalled conversation is current (`Settlement.ResumeKeepsGensIffCurrent`); a
  closed generation stays closed exactly while no resume starts that very number again
  (`Closing.StepKeepsSpentIff`); a worn-out worker stays stopped exactly while no resume off the roster uses a
  conversation that counts fewer stops (`Timeouts.StepKeepsWornOutIff`). The runs are
  `StaleResume.StaleClaimReissuesGeneration` and `Witnesses.StaleRestartIsReached`. Theorems about the identity
  of generations and streaks take `CurrentRun`.
- A resume of a worker whose own record and whose parent's record were both evicted leaves a parent nobody
  knows (`Family.ResumeKeepsParentsIff`, reached in `Witnesses.LostParentIsReached`). A spawn whose minted id is
  already recorded above its caller, which only a child restored without its parent can bring about, closes a
  cycle (`Delegation.SpawnKeepsAcyclicIff`, reached in `Witnesses.CycleIsReached`). Theorems about the tree take
  `RootedRun`, whose condition a caller can check before each call.
- `Cleanup` and `Close` cancel after they let go of the lock. That can hit a generation resumed in between
  (`Cancellation.UnlockedCancelFairIff`, `Witnesses.UnlockedCancelIsReached`). A worker whose context is not yet
  installed is missed by `Cleanup` without delegation (`Cancellation.CleanupReachesIff`,
  `Witnesses.MissedCleanupIsReached`) and always by `Close` (`Cancellation.CloseReachesIff`,
  `Witnesses.MissedCloseIsReached`).
- `remember` files a snapshot taken earlier, so a close in between is missing from the archived checkpoint
  (`ArchiveRace.FiledIsCurrentIff`, `ArchiveRace.CloseMissesCheckpoint`, `Witnesses.LostCloseIsReached`).
- `ResetWorkerTimeouts` clears the roster and the archive. A worker that was pruned and evicted but is still
  owed keeps its count (`Timeouts.ResetReachesIff`, `Witnesses.MissedResetIsReached`), and so does a conversation
  somebody recalled or is archiving when the reset comes (`Streaks.ResetKeepsCountsIff`,
  `Witnesses.OvertakenResetIsReached`).
- `resume_agent` takes no role lock, so a resume between the two looks of a spawn makes a twin role
  (`RoleLock.ResumeBetweenLooksMakesTwin`, `RoleLock.InsertKeepsOneEachIff`, `Witnesses.TwinIsReached`).
- Replaying a replay is not idempotent when the worker's task text is the handoff instruction itself and no
  message of the history was spoken (`ReplayProtocol.ReplayIdempotent`; the empty history is such a one).
- At the largest `int` the id counter wraps and may mint a known id (`WorkerId.FreshWhileBelowMax`).

## Model

| member | source | states |
|---|---|---|
| ToolCallMerge.Itoa | signal.go:354-374 | writes the decimal text of any int into the 20-byte buffer without overrunning it, for the smallest int included |
| ToolCallMerge.ItoaInjective | signal.go:354-374 | distinct indices have distinct texts, so never share a merge key |
| ToolCallMerge.KeysCollide | signal.go:318-321 | two fragments share a key only by the same index, the same id, or an id that spells the other's index |
| ToolCallMerge.MergeStreamedToolCalls | signal.go:311-350 | the loop over the map and the order slice computes the fold of the fragments |
| ToolCallMerge.MergeIsByKey | signal.go:311-350 | described without the fold: one call per key in first-seen order, with the first non-empty id and name, the type and remaining fields of its first fragment, and the in-order concatenation of the arguments of its own fragments |
| ToolCallMerge.MergeInStages | signal.go:311-350 | merging a merged prefix with the rest equals merging everything at once |
| ToolCallMerge.MergeIdempotent | signal.go:311-350 | merging merged calls changes nothing |
| ToolCallMerge.InterleavingKeepsCalls | signal.go:311-350 | interleaving fragments of different keys changes no call |
| Replay.ClonesInOrder | resume.go:440-456 | the copy has the messages that are not nil, as often as they occur and in their order |
| Replay.RestoredWorkerMessages | handoff.go:348-405 | the loop over open calls and held-back receipts computes the replay that the lemmas of ReplayProtocol are about |
| Replay.SealOpen | handoff.go:358-369 | unanswered calls get unknown outcomes in id order, then the receipts held back follow |
| Order.LeqIsLexicographic | handoff.go:363-363 | ids are sorted as texts: one comes first if the other continues it, or has the greater character where they first differ |
| ReplayProtocol.ReplayLegal | handoff.go:348-405 | the replay of any history is legal: every tool message answers an open call of the last other message, and none is left open |
| ReplayProtocol.OpenIsAwaiting | handoff.go:374-396 | the calls the loop holds open are exactly those declared by the last spoken message and not answered since |
| ReplayProtocol.ReplayLossless | handoff.go:370-405 | every spoken message is kept, every tool message is kept verbatim exactly if its call awaited an answer and otherwise becomes one receipt, only the handoff instruction disappears, and order is kept |
| ReplayProtocol.LegalIsFixed | handoff.go:348-405 | a conversation that is already legal, with no instruction in it, passes through unchanged |
| ReplayProtocol.ReplayIdempotent | handoff.go:348-405 | replaying a replay gives it back exactly if the worker's task is not the handoff instruction or some message was spoken |
| ReplayProtocol.CuesAtTheEnd | handoff.go:397-404 | a replay ends in the resume cue exactly if the history holds the handoff request, and has the worker's task right before that exactly if nothing was spoken; each once |
| ReplayProtocol.InventedAnswersNameTheirCall | handoff.go:358-369 | an unknown outcome answers a call the history declares, under its id and with the name its last declaration gives it |
| ReplayProtocol.ReceiptsTellTheirMessage | handoff.go:408-418 | a tool message whose call is gone comes back as host data that tells its call id, tool and content |
| SlotGate.NeverLosesWakeup | gate.go:37-63 | over any interleaving of acquire, release and growing or shrinking resize, while anyone sleeps held plus notified is at least the cap |
| SlotGate.FreeSlotReachesWaiter | gate.go:37-63 | a free slot never meets only sleeping waiters |
| SlotGate.HeldIsBalance | gate.go:37-53 | for matched use, held is acquires minus releases and the number of holders |
| SlotGate.DrainFillsSlots | gate.go:37-63 | once the notified have run, in any order, nobody vanished, nobody entered past the cap, and sleepers remain only if every slot is taken |
| SlotGate.NobodyIsForgotten | gate.go:37-63 | after any run, whoever asked for a slot and has not released it holds one, sleeps or was notified, and nobody else does |
| SlotGate.ArrivesOrSleeps | gate.go:37-44 | who arrives takes a slot exactly if one is free, and otherwise sleeps on the condition variable |
| SlotGate.CapIsLastSize | gate.go:28-63 | the cap is the size asked for last, or eight where that was not positive |
| SlotGate.SlotGate.constructor | gate.go:28-35 | a gate starts empty with a positive cap |
| SlotGate.SlotGate.Acquire | gate.go:37-44 | the first test of acquire takes the step the runs are made of |
| SlotGate.SlotGate.Resume | gate.go:37-44 | the test after a wakeup does as well |
| SlotGate.SlotGate.Release | gate.go:46-53 | release frees a slot and signals some sleeper if there is one |
| SlotGate.SlotGate.Resize | gate.go:55-63 | resize sets the cap and wakes everyone |
| WorkerId.ReadBack | restore.go:259-269 | the number read back from role-dash-n is n, for any role text |
| WorkerId.TrailingSeqReads | restore.go:259-269 | of any id the number is what follows its last dash, with or without a plus sign, if an int can hold it, and zero otherwise |
| WorkerId.MintInjective | spawn.go:67-68 | minted ids are distinct across roles as well as numbers |
| WorkerId.FreshWhileBelowMax | spawn.go:67-68 | a counter at least every known number mints a new id exactly while it is below the largest int |
| Soundness.MintedIdIsNew | restore.go:253-257 | in every world of every run the number in every known id is at most the counter, and the id the next spawn mints was never used |
| ToolScope.NamedWorkerTools | worker_tool_scope.go:31-49 | finds the first tool without a name or with a repeated one |
| ToolScope.WithWorkerToolSelection | worker_tool_scope.go:72-109 | the loops over the sorted request and the surface compute the selection or its first problem |
| ToolScope.SelectGrants | worker_tool_scope.go:72-109 | a request is granted exactly if it names, once each, tools this surface has on offer |
| ToolScope.SelectExplains | worker_tool_scope.go:72-100 | every refusal is true of the request, and of the first of its names in order that has any fault |
| ToolScope.SelectExact | worker_tool_scope.go:101-108 | what stays selectable is exactly the selection, and tools outside the catalog stay |
| ToolScope.ScopeOnlyShrinks | worker_tool_scope.go:72-109 | along any chain of selections the explicit selection only shrinks |
| ToolScope.SelectTwice | worker_tool_scope.go:72-109 | selecting A then B is granted exactly if B alone is and lies within A, with the same surface |
| ToolScope.RestoreRebuildsSurface | worker_tool_scope.go:111-118 | restoring from the recorded selection gives back the surface the chain of delegations gave |
| ToolScope.RestoredScopeAllowed | worker_tool_scope.go:136-164 | the check accepts exactly an explicit subset of an explicit parent selection |
| ScopeRuns.SurfaceIsSelection | spawn.go:66-74 | in every world of every run, what a running worker with an explicit selection can hand on is exactly that selection |
| ScopeRuns.ScopeShrinksDownTheTree | worker_tool_scope.go:72-164 | in every world of a rooted run, whoever is delegated below a worker with an explicit selection has one too, and it is a subset, through spawns, resumes, restores and plantings; the narrowing of a spawn is that of the cut it makes in its caller's surface |
| ScopeRuns.DescendantsOfferLess | worker_tool_scope.go:72-109 | what a running descendant can hand on lies within its ancestor's selection |
| Soundness.StepSound | settlement.go:43-55 | every step keeps: tables file newest handles under their own id, unfinished workers are on the roster, nothing pending is collected, the newest unsettled handle is pending, pastIDs lists past once each |
| Soundness.StepExtends | resume.go:346-362 | a step moves a generation only forward, keeps its marks, cancel function and identity, and starts the next generation only on a done handle |
| Soundness.StepPast | resume.go:86-109 | an archived conversation is the one just filed, or the one that was there with only marks and budget changed |
| Soundness.EnlistingShape | spawn.go:66-74 | a spawn, resume, restore or planting adds one handle under its own id, renews the done handle on the roster, or changes nothing |
| Soundness.RunSound | settlement.go:43-55 | all of that in every world of every run |
| Settlement.NeverReenters | settlement.go:45-52 | a generation that existed and was not pending is not pending after any step |
| Settlement.LeavesPendingOnce | settlement.go:65-94 | over any run, a handle's generation leaves pending at most once |
| Settlement.TokenSettlesItsOwn | settlement.go:65-94 | a token settles exactly the generation it names, or changes nothing at all |
| Settlement.UnsettledStaysAddressable | swarm.go:617-630 | in every world of every run, the newest handle of an id neither collected nor closed is pending and is what the id resolves to, before and after any pruning |
| Roster.PruneDropsExactlyTheFinished | swarm.go:617-630 | pruning takes exactly the finished workers off the roster and nothing out of any other table |
| Roster.RecallTells | resume.go:112-138 | recall gives the archived conversation, or that of the newest handle once finished and while listed or owed, and else says why |
| Roster.RunningIsFound | resume.go:142-163 | runningID finds a worker of the role that is unfinished, and nobody only if there is none |
| Roster.LatestIsReused | resume.go:170-185 | of the archived conversations of a role nobody continues, the one that arrived last is reused, before any other |
| Settlement.ResumeKeepsGensIffCurrent | resume.go:329-343 | a resume off the roster keeps generations distinct exactly if the recalled conversation is current |
| Settlement.CurrentIffStillRecalled | resume.go:112-138 | for an id the registry still knows, current means that looking it up again gives the same generation |
| Settlement.StepKeepsGens | resume.go:346-362 | every other step keeps generations of one id distinct and increasing |
| Settlement.StepKeepsArchiveCurrent | resume.go:86-99 | the archive holds the newest generation once that was archived |
| Settlement.AgentGenerationSettledOnce | settlement.go:65-94 | when resumes are current, each agent and generation leaves pending at most once |
| StaleResume.StaleClaimReissuesGeneration | resume.go:237-343 | a run from an empty registry whose stale claim issues a generation twice and revives a closed caller |
| Witnesses.TwinIsReached | resume.go:364-397 | a run into two workers of one role |
| Witnesses.StaleRestartIsReached | resume.go:329-343 | a run in which a stale claim restarts an exhausted worker |
| Witnesses.OvertakenResetIsReached | worker_timeout.go:69-82 | a run in which a resume carries a count from before the reset |
| Witnesses.MissedResetIsReached | worker_timeout.go:69-82 | a run in which a worker is refused for its budget right after a reset |
| Witnesses.LostCloseIsReached | resume.go:86-99 | a run that settles a worker and files a checkpoint saying it is owed |
| Witnesses.MissedCleanupIsReached | swarm.go:731-755 | a run in which Cleanup counts a worker that then starts uncancelled |
| Witnesses.MissedCloseIsReached | swarm.go:758-780 | a run in which a worker starts uncancelled after Close |
| Witnesses.UnlockedCancelIsReached | swarm.go:731-755 | a run in which Cleanup's cancel hits a generation resumed in between |
| Witnesses.LostParentIsReached | resume.go:329-343 | a run into a parent nobody knows |
| Witnesses.CycleIsReached | spawn.go:46-74 | a run into a cycle of parents: a child restored without its parent, then a spawn that mints the parent's id |
| ArchiveRace.FiledIsCurrentIff | resume.go:86-99 | the archive agrees with the handle after remember exactly if the snapshot was not outdated |
| ArchiveRace.CloseMissesCheckpoint | resume.go:86-99 | a worker closed between snapshot and filing is settled here, but its planted checkpoint is owed again |
| ArchiveRace.CollectReachesArchive | settlement.go:89-92 | settling a handle marks the archived checkpoint of the same generation alike, and no other |
| ArchiveRace.CloseReachesArchive | delegation.go:174-183 | closing a subtree does so for every member, and counts an archived member with no handle as collected |
| Delegation.DescendantIsReach | delegation.go:71-81 | the climb with its seen set ends on any registry and decides reachability by parents, both ways |
| Delegation.ParentCheckIsExact | delegation.go:92-97 | recording a parent keeps the relation acyclic exactly if the check passes |
| Delegation.RestoreKeepsAcyclic | restore.go:135-137 | restoring keeps the tree acyclic |
| Delegation.SpawnKeepsAcyclicIff | spawn.go:46-72 | a delegated spawn does exactly if the minted id is not already above its caller |
| Delegation.TrimKeepsChains | delegation.go:193-221 | trimming leaves the whole chain of ancestors of every remaining id as it was |
| Delegation.TrimSparesAncestors | delegation.go:195-221 | no remaining id, live, pending or archived, descends from a removed one |
| Delegation.TrimEnds | delegation.go:195-221 | trimming ends within the limit, or with every archived id the ancestor of a known one |
| Delegation.TrimLeavesOnlyAncestors | delegation.go:193-221 | in a tree, an archive left over its limit holds only ancestors of workers not themselves archived |
| Soundness.TrimListed | delegation.go:212-213 | trimming keeps pastIDs a duplicate-free listing of past and only forgets |
| Delegation.EvictKeepsLatest | resume.go:104-109 | without delegation the archive keeps the latest conversations up to its limit |
| Archive.TrimForgetsNoMore | delegation.go:195-221 | trimming keeps the order of arrival and forgets nobody the limit has room for |
| Archive.OldestGoesFirst | delegation.go:195-221 | a conversation is forgotten before an older one only if somebody descends from the older one |
| Archive.StepKeepsPlaces | resume.go:86-109 | over every step short of closing the registry, the archive keeps its order, a newcomer comes last, an old one keeps its place, and nobody goes whom the limit has room for |
| Family.StepKin | delegation.go:57-69 | all handles and records of an id agree on role, parent and tools, after every step |
| Family.StepFamily | delegation.go:57-69 | every rooted step keeps every parent record |
| Family.ParentsStayKnown | delegation.go:57-69 | every recorded parent is a known id and is the worker that spawned the child |
| Family.ChainIsLineage | delegation.go:71-81 | the chain of parents in the tables is the true lineage, all the way up |
| Family.DelegationTreeIsWhole | delegation.go:57-97 | in every world of a rooted run: acyclic, parents known, and descendantLocked finds exactly the workers delegated below |
| Family.ResumeContinuesWorker | resume.go:325-343 | a resumed worker keeps id, role, parent, tools and failure count, and starts its next generation, running and owed |
| Family.ResumeKeepsParentsIff | resume.go:329-343 | a resume of a forgotten worker keeps that exactly if its parent is the manager or still known |
| Family.DelegatedIsBelowCaller | spawn.go:46-74 | a delegated spawn files a new, pending, first-generation worker below its caller |
| Closing.CloseSettlesTheTree | delegation.go:136-191 | closing settles the root and every live or pending worker delegated below it, and changes no other handle |
| Closing.CloseLeavesOthers | delegation.go:155-184 | no other pending entry or archived conversation changes |
| Closing.CloseReportIsTrue | delegation.go:155-190 | close_agent names the root first and then in order everyone below it, each once, under the generation it closed, and as cancelled exactly if that had not finished, which is when it was asked to close and not collected |
| Closing.StepKeepsSpentIff | resume.go:283-344 | a step keeps a generation without its right to delegate exactly unless it is an admitted resume that starts that generation, and such a one gives the right back |
| Closing.OffRosterClaimKeepsSpentIff | resume.go:335-343 | for a resume off the roster that is: the recalled generation is not one below |
| Closing.ClosedNeverDelegatesAgain | delegation.go:31-43 | in any later world, no generation the closed workers had is admitted as the caller of a spawn, running, finished or resumed, as long as no resume starts that very generation a second time |
| Closing.ClosedInCurrentRuns | delegation.go:31-43 | so never in a run whose resumes are current |
| Closing.CleanupStopsDelegation | swarm.go:731-744 | with delegation on, a cleanup does the same to every worker of its time, under the same condition |
| Closing.CleanupInCurrentRuns | swarm.go:731-744 | and in every run whose resumes are current |
| Cancellation.StopIsNeverLost | worker.go:50-65 | a generation told to stop before it finished, in any order with its start, has its context cancelled, or somebody still holds the cancellation it is owed |
| Cancellation.DrainedIsCancelled | delegation.go:187-189 | once as many held cancellations were carried out as were waiting, in any order, none waits and every context of a generation that is over or was told to stop is cancelled |
| Cancellation.EveryCloseTells | settlement.go:78-84 | collectWorker closing, closeSubtree, stopForHandoff and a delegating Cleanup each tell an unfinished generation to stop |
| Cancellation.OnlyItsOwnGeneration | settlement.go:81-84 | a close delivered late cancels only the generation it was meant for |
| Cancellation.UnlockedCancelFairIff | swarm.go:136-144 | the unlocked cancel of Cleanup and Close is fair exactly if the generation it then finds is over or told to stop |
| Cancellation.CleanupReachesIff | swarm.go:731-755 | a worker Cleanup counted is cancelled exactly if its context was installed, delegation is on, or it was told otherwise |
| Roster.CleanupMarksExactlyTheUnfinished | swarm.go:731-744 | with delegation on, a cleanup takes the right to delegate from exactly the unfinished workers, and changes nothing else |
| Roster.CleanupNamesTheUnfinished | swarm.go:745-755 | and it names exactly those for the cancellation that follows |
| Cancellation.CloseNamesEveryone | swarm.go:758-780 | Close names every unfinished worker of an open registry for cancellation |
| Cancellation.NamedUntilCancelled | swarm.go:748-755 | whoever Cleanup or Close named stays named until Handle.Cancel was called on it, over any run |
| Cancellation.CloseReachesIff | swarm.go:758-780 | Close, which marks nobody, cancels a running worker exactly if its context was installed or it was told otherwise |
| Capacity.LiveCountIsUnfinished | gate.go:89-101 | counting the roster counts every unfinished worker |
| Capacity.NeverOverCap | spawn.go:61-74 | with admitted spawns and resumes and a fixed cap, unfinished workers never exceed it in any interleaving |
| Admission.SpawnIsAdmittedIff | spawn.go:37-74 | a spawn is let in exactly if no handoff began, the registry is open, its caller runs in the generation it names and was not closed, and fewer than the cap are unfinished; else it is told which failed first |
| Admission.ResumeIsAdmittedIff | resume.go:283-344 | the same of a resume: no unfinished generation, a selection within the parent's, room below the cap, and fewer than three counted stops |
| Admission.RestoreIsAdmittedIff | restore.go:127-189 | the same of a restore: no circle, a selection within the parent's and as recorded, not unfinished or under another parent, and fewer than three stops by every count |
| Admission.RestoreKeepsTheLargestCount | restore.go:142-179 | an admitted restore counts as many stops as the stored checkpoint, the archive or the roster did, whichever is most |
| Admission.PlantIsAdmittedIff | restore.go:220-248 | the same of a planting, which a handoff does not stop and which changes nothing for a finished worker on the roster |
| Admission.EveryGenerationStartsClean | resume.go:346-362 | whatever a generation left behind, the next starts without result, error, context, handoff request or call in flight, unsettled unless its stored marks say otherwise, with its conversation and count kept |
| Admission.RestoreRoundTrip | settlement.go:132-144 | restoring an archived running worker in a process that never had it, and taking its snapshot again, gives back the checkpoint; it is owed exactly if its marks say so |
| Admission.PlantedIsOwedIff | restore.go:213-248 | a planted worker is owed exactly if its roster kept a generation and neither mark is set; one without a generation counts as collected, in its first |
| Admission.DelegationTurnsOnIff | spawn.go:66-66 | the registry starts to keep ancestry with the first spawn whose surface lets it delegate, and by no other step |
| Capacity.UnfinishedIsNotStarted | resume.go:283-311 | an unfinished worker is not resumed, restored or planted over |
| Capacity.OneResumeWins | resume.go:283-344 | of two resumes of one finished worker the second is refused until the first one's generation is over |
| Timeouts.RunningIsWithinBudget | worker_timeout.go:37-42 | the counter of a running worker is below three in every world of every run |
| Streaks.RunningStreakBelowThree | worker_timeout.go:37-67 | in every world of every run with current resumes a running worker has fewer than three watchdog stops in a row behind it, counted on the run over all its handles, and its counter says at least as many |
| Streaks.CountIsStreak | worker_timeout.go:44-67 | the counter of a worker on the roster or owed is exactly that streak, across pruning, archiving, renewals and resumes off the roster, as long as resets find no counted conversation in somebody's hands |
| Streaks.ResetKeepsCountsIff | worker_timeout.go:69-82 | a reset leaves every count at zero exactly under that condition |
| Streaks.ThreeInARowRefused | resume.go:313-334 | from three in a row on no resume is admitted, of the roster's handle or of a current conversation |
| Streaks.RefusedFromThree | resume.go:319-324 | and where nothing else refuses, a worker on the roster is refused exactly from three in a row on |
| Timeouts.ResetReachesIff | worker_timeout.go:69-82 | an explicit reset leaves a resume refused for its budget exactly if the worker is neither on the roster nor archived |
| Roster.ResetClearsExactly | worker_timeout.go:69-82 | a reset clears the counts of the roster and the archive and touches nothing else |
| Timeouts.ThirdStopExhausts | worker_timeout.go:54-57 | a stop that brings the count to three exhausts the worker in every record of it |
| Timeouts.ExhaustedIsNeverResumed | resume.go:313-334 | in a run whose resumes are current an exhausted worker is not resumed, on the roster, pruned or evicted, until an explicit reset |
| Timeouts.StepKeepsWornOutIff | resume.go:312-343 | outside of a reset a step keeps a worn-out worker worn out exactly unless it is an admitted resume of it off the roster |
| Timeouts.WornOutClaimIff | resume.go:312-343 | where nothing else refuses, that resume is admitted exactly if the recalled conversation counts fewer than three stops |
| Timeouts.WornOutIsNeverResumed | resume.go:312-343 | so in any run, from the third counted stop to a reset, no other resume is ever admitted |
| Timeouts.ExhaustedIsNotRestored | restore.go:142-179 | nor restored with a smaller stored count while it is on the roster or archived |
| RoleLock.PickFromFirst | role.go:86-95 | the search gives the first free name, or the stem exactly when none of the 9999 is free |
| Roster.PickSaysWhich | role.go:77-98 | a path-shaped spawn gets its job's name or the first of those numbered 2 to 9999 nobody has, worker for a job without a name or with the manager's, and never the manager's |
| RoleLock.OneWorkerPerRole | tools.go:201-263 | with any overlap of spawn_agent calls and any ends, pruning, settlement and eviction between their sections, no two known ids share a role |
| Roster.CallLeavesServed | tools.go:201-263 | a spawn_agent call that is ready to return delivered to a worker that still runs, resumed one, or made one of its role, unless it was cut short, refused admission with nothing changed, or found the conversation gone |
| Roster.SteersOnlyToTheRunning | tools.go:201-263 | a call that found a running worker delivers to it exactly if it still runs, and else looks for a finished one |
| RoleLock.InsertKeepsOneEachIff | spawn.go:66-74 | an insertion keeps that exactly if no known id has the role at that moment |
| RoleLock.ResumeBetweenLooksMakesTwin | resume.go:364-397 | a resume_agent between the two looks of a spawn makes a twin |
| RoleLock.ClaimsStayCounted | role.go:73-110 | pendingRoles counts the path-shaped calls in progress, and lists no name without any |
| RoleLock.DirtyNamesDiffer | role.go:77-98 | a path-shaped spawn gets a name no other one in progress claimed and no listed or archived worker has |
| PendingWait.CompletesIff | settlement_wait.go:15-59 | the wait succeeds exactly if every listed generation is finished and still pending in that generation |
| PendingWait.ReportIsOfItsRun | settlement.go:96-112 | what is reported of a generation once done is the result and outcome its own run ended with, in every later world |
| PendingWait.HandoffStopIsNeverDone | worker_timeout.go:47-53 | a generation the handoff cut stands as failed by it, without a result and with its count as it was, in every later world |
| HandoffRuns.OnlyAHandoffCuts | worker_timeout.go:47-67 | and until a handoff began no run is cut by one: a generation that ends before then stands with its own result and outcome |
| PendingWait.ReportIsOfTheIdAsked | settlement.go:96-130 | an id is reported unknown exactly if nobody listed or owed has it, and else with the truth of its newest handle: running without a result until done, then how it ended |
| PendingWait.WaitThenCollect | tools.go:497-505 | a wait_agents right after reports those generations in order and collects exactly those |
| PendingWait.ReportWheneverLooked | settlement.go:114-130 | locks are taken anew for each id: whenever it looks, a completed generation still owed is reported under its number, with a token of that very generation |
| Handoff.CheckpointHistory | handoff.go:199-203 | the loop writes the unknown outcome over the answers of calls in flight |
| Handoff.CheckpointChangesOnlyUnconfirmed | handoff.go:199-203 | a checkpoint changes nothing of the conversation but what those answers say |
| HandoffRuns.ReplayInventsNoOutcome | handoff.go:188-215 | in the replay of a checkpoint every answer and receipt of a call in flight says unknown; any other answer is in the history word for word or says unknown |
| HandoffRuns.ReplayKeepsConfirmed | handoff.go:370-405 | a result whose call is not in flight keeps its text and appears once |
| HandoffRuns.InFlightOnlySucceeds | handoff.go:239-269 | after the handoff began a call is in flight exactly if it was then and has not succeeded since |
| HandoffRuns.InFlightIsWhatBegan | handoff.go:239-269 | in every world of every run a call listed in flight was let in by this generation before the handoff, under this name and id and with these arguments, and neither succeeded nor was begun anew since |
| Handoff.AnswerOfACall | handoff.go:254-269 | a success is confirmed word for word in the history and the checkpoint; a failure is unknown once the handoff was asked for, and before keeps its output, or its error if it printed nothing |
| Roster.HandoffAsksExactlyTheRunning | handoff.go:72-83 | the handoff asks exactly the workers whose run has not ended and changes nothing else |
| HandoffRuns.HandoffNeverInventsOutcome | handoff.go:72-83 | so the replay of any later checkpoint answers it with the unknown outcome, and is legal |
| Registry.Handle.ResetForResume | resume.go:346-362 | the next generation: done reopened, marks, result, context and handoff state cleared, identity and failure count kept |
| Registry.Handle.CompleteWorker | worker_timeout.go:44-67 | a handoff stop leaves no result and no trace in the count, a watchdog stop counts, a success or a failure outside a handoff clears the count |
| Registry.Handle.Snapshot | settlement.go:97-112 | status, result and generation belong together: a result is reported only of the done generation it names |
| Registry.Handle.InstallCancel | worker.go:50-61 | the context is born cancelled exactly if the generation was told to stop before it started |
| Registry.Handle.StopForHandoff | handoff.go:174-186 | a finished generation is left alone, an unfinished one is marked and its cancel function handed out |
| Registry.Handle.BeginTool | handoff.go:245-251 | an admitted call is in flight until it succeeds |
| Registry.Handle.FinishTool | handoff.go:254-269 | only a success takes the call out, and a failure during a handoff is recorded as unknown |
| Registry.Registry.constructor | swarm.go:295-306 | a new registry is the empty one every run starts from |
| Registry.Registry.NotePending | settlement.go:45-52 | an unsettled handle becomes the one owed under its id, a settled one does not |
| Registry.Registry.CollectWorker | settlement.go:65-94 | succeeds exactly for the pending generation the token names, settles only that, and hands out that generation's cancel function |
| Registry.Registry.Find | swarm.go:308-319 | the roster first, else an uncollected result, and nothing once closed |
| Registry.Registry.WaitSnapshotCollections | settlement.go:114-130 | one entry per id, unknown ids included, and a token exactly for each finished one, when all ids are looked at in one state |
| Registry.Registry.CollectAll | tools.go:502-504 | collecting those tokens one after the other is the fold that PendingWait.WaitThenCollect is about |
| Registry.Registry.LiveCount | gate.go:93-101 | the loop counts the roster's unfinished workers |
| Registry.Registry.Stats | swarm.go:617-630 | drops exactly the done handles while iterating, and counts both kinds; pending results are untouched |
| Registry.Registry.ParentOf | delegation.go:58-69 | the recorded parent, from the first table that knows the id |
| Registry.Registry.IsDescendant | delegation.go:71-81 | the loop with its seen set ends and decides the relation of Delegation.DescendantIsReach |
| Registry.Registry.FindUnneeded | delegation.go:198-211 | the scan finds the first archived id no known worker descends from |
| Registry.Registry.TrimArchive | delegation.go:195-221 | the nested loops trim as in Delegation.TrimKeepsChains and TrimSparesAncestors |
| Registry.Registry.EvictOldest | resume.go:104-109 | the loop evicts as in Delegation.EvictKeepsLatest |
| Registry.Registry.Remember | resume.go:86-110 | files a snapshot once, bounds the archive the way delegation demands, and does nothing once closed |
| Registry.Registry.MayDelegate | delegation.go:32-43 | exactly the current, unfinished, not closed generation of the roster may delegate |
| Registry.Registry.ParentFits | delegation.go:92-97 | the check of Delegation.ParentCheckIsExact |
| Registry.Registry.ScopeIsWithin | worker_tool_scope.go:136-164 | a known parent's explicit selection bounds the child's, an unknown parent bounds nothing |
| Registry.Registry.SpawnAgent | spawn.go:37-74 | no admission during a handoff, after a close, for a caller without the right or past the cap; otherwise one numbered handle is inserted under the same lock |
| Registry.Registry.ClaimForResume | resume.go:283-344 | renews the done handle on the roster or makes one for an id off it, refusing whatever runs, is exhausted, widens its scope or passes the cap, and then changes nothing |
| Registry.Registry.CloseSubtree | delegation.go:136-191 | the loops close the subtree, report it root first in id order, and return the cancel functions of its running members |
| Registry.Registry.BeginHandoff | handoff.go:72-83 | stops admission and asks every unfinished worker on the roster, and no other |
| Registry.Registry.ResetWorkerTimeouts | worker_timeout.go:71-82 | gives the budget back to everyone on the roster and in the archive |
| Registry.Registry.Cleanup | swarm.go:731-747 | names exactly the running handles and, with delegation, takes their right to delegate first |
| Registry.Registry.Close | swarm.go:758-780 | forgets every table, and names the handles still to be cancelled |
| Registry.Registry.StartWorker | worker.go:50-61 | installs the run context of this generation, born cancelled exactly if it was told to stop |
| Registry.Registry.StopForHandoff | handoff.go:174-186 | stops the current generation only, whether its context is installed or not |
| Registry.Registry.BeginWorkerTool | handoff.go:239-252 | a call is admitted exactly if no handoff began, and only then in flight |
| Registry.Registry.FinishTool | handoff.go:254-269 | the answer joins the history, and the call leaves the in-flight set only by success |
| Registry.Registry.CompleteWorker | worker_timeout.go:44-67 | the end of a run touches its own handle and no table |
| Registry.Registry.SnapshotForArchive | resume.go:80-84 | copies identity, generation, marks and budget under the handle's lock alone |
| Registry.Registry.StoreInArchive | resume.go:88-109 | files that snapshot, however old it is by then |
| Registry.Registry.CloseDone | worker.go:75-75 | done closes only after the archive update |
| Registry.Registry.NoteId | restore.go:253-257 | the counter is at least the number in the id from then on |
| Registry.Registry.ClaimForRestore | restore.go:127-189 | claims an id for a restored worker or says why not, never lowering its failure count |
| Registry.Registry.RestoreCollection | settlement.go:132-144 | the stored generation and marks replace the new ones, and the handle is owed exactly if they leave it unsettled |
| Registry.Registry.PlantFinished | restore.go:206-248 | adds a finished worker once, in its stored generation or, without one, as a collected first one; refuses a cycle, a wider scope, a changed scope or a running id |
| Registry.Registry.Recall | resume.go:112-138 | the archived conversation, else that of a done handle the id resolves to |
| Registry.Registry.RunningID | resume.go:142-163 | finds the running worker of the role that was made first, if there is one |
| Registry.Registry.ReusableFinishedID | resume.go:170-203 | finds the latest free archived worker of the role, else a done one on the roster, else among pending |
| Registry.Registry.RoleBusy | role.go:112-126 | a role is taken if claimed, on the roster or archived; pending results alone do not count |
| Registry.Registry.ClaimReadableRole | role.go:77-98 | claims the stem or its first free numbered name |
| Registry.Registry.ReleaseRoleClaim | role.go:100-110 | gives one claim back, and drops the name with the last |
| Registry.Registry.BeginWait | settlement_wait.go:19-41 | accepts a list of generations exactly if each is pending, running when listed, current and named once |
| Registry.Registry.CountMatches | settlement_wait.go:52-57 | counts the pending generations that are done and listed |

## Left out

- Model, tool and graph calls of the agent library: a run is its end, with a result, an error, or a watchdog stop.
- Notifications, hooks, user interface sinks, activity text, elapsed times and text clipping: presentation only.
- Wall-clock time: only the order of events and whether the watchdog fired are kept; the class keeps when a generation was made, as a number its caller supplies.
- Registry.Registry.WaitSnapshotCollections: looks at all ids in one state, while the source takes the locks anew for each; what it sees then is `PendingWait.ReportWheneverLooked`, and a token taken at any time settles its own generation or nothing.
- JSON and argument parsing, prompt texts, and the exact wording of the host's fixed messages, which are shortened to distinct openings.
- The unlocked waiting of `wait_agents` and `WaitPendingCompletion` between their sections: any steps may happen there.
- Model bindings, configuration tags and worker-configuration callbacks: host functions not part of this model.
- `dirtySpawnRole` and `spawnStem`: Unicode letter classes are not modelled; the stem is any text.
- Manager preemption, steering and inboxes, spawn feedback, receipts, chunk absorption: independent of the tables.
- Runs.Apply: `Restore` and `PlantFinished` are single steps on ids this process never had; the sections they are made of, for any id, are methods of the class. A restore over a known id overwrites its generation with the stored one, and planting a collected worker leaves an older pending entry, so neither belongs in a ledger run.
- Runs.Enabled: a spawn step needs a counter below the largest int; what happens at the largest int is `WorkerId.FreshWhileBelowMax`.
- Runs.Rebuilt: on a resume the source writes the rebuilt selection back in sorted order; the model keeps the recorded order, which differs only for a planted selection that was not sorted.
- Runs.Source: a spawn by the host's own code from inside a worker's context, which would take over that worker's selection without becoming its child.
- Turning delegation on by replacing the worker configuration of a running registry: the flag is set at the start or by a spawn.
- Lifecycle.Recall: a handle seen done and its snapshot are one step; a resume between the two would show a later generation of the same worker.
- Registry.Registry.Search: map iteration order is any order, and a loop may settle on any entry that fits.
- Registry.Registry.ReusableFinishedID: needs pastIDs to list every archived id, which `Soundness.RunSound` gives in every run.
- Registry.Registry.PlantFinished: the conversation is archived by a separate call, as in the source.
- Archived history text is not kept in an archived conversation; its identity, generation, marks, budget and scope are.
- Timeouts.ExhaustedIsNotRestored: says nothing of an exhausted worker that left both the roster and the archive; the code then knows only the stored count.
