# Verification of Open Tulid's runtime

Open Tulid runs workers in containers, collects what they produce as a sealed candidate, verifies it and
integrates it into a repository and an Obsidian task board. This project models the parts of it that have
to survive crashes, concurrency and unlucky timing, and proves what they promise. `dafny verify
dfyconfig.toml` checks everything.

## Parts

**Acceptance and crash recovery** (`FileTree`, `Delivery`, `Integration`, `EventLog`, `Acceptance`,
`CompletionService`, `RecoverySafety`, `RecoveryRuns`, `Recovery`, `Convergence`, `Submission`,
`SubmissionOutcome`, `CrashOutcome`, `CommitProof`, `Instances`, `RecoveryPasses`). Two manifests give a
delta, the delta a plan of deletions and promotions, the plan with a commit, artifacts, derived tasks and
a move a journal. The stores are a file tree with explicit directories, artifacts, tasks, a branch head,
the event log, journals and jobs. A crash may fall between any two effects, between any two event
records, before the journal is committed and before the job is accepted, in the live run and in every
recovery. The recovery theorem compares the replay of an arbitrary mixture of before and after images
with the run that was never interrupted. `CrashOutcome.SubmissionSurvivesIffSafe` puts delivery, journal,
crashes and recovery together and says exactly which submissions survive; `RecoveryPasses` says when a
whole pass reaches a journal; `RecoveryRuns` says what holds over whole histories of recoveries.

**Derived batches** (`Numerals`, `CycleSearch`, `DerivedBatch`, `Publication`). All-or-nothing
validation, the depth-first cycle search, identifier allocation, and publication: publishers under a lock
and recovery without it, every creation and every move a load and a later write of the whole board.

**Attempt budget** (`AttemptRecords`, `AttemptBudget`, `AttemptAccount`, `AttemptHistories`). The job store's
record rewriting, the account of consumed attempts, and a step system of executors that load, check, admit,
count, mark, launch, repair and settle, with crashes between any two store writes, new jobs, and, at any
stage, status writes from outside and the single writes of any number of reconciliation passes.

**Linked context** (`LinkedContext`), **board edits and multi-file writes** (`BoardLines`, `Board`,
`AtomicWrite`), **chunked bodies** (`ChunkedBody`), **identifiers** (`Ulid`) and the **chain driver** of
the worker proof (`WorkerChain`).

## Reading the model

- File contents stand for their digests, and a commit is its parent, tree and subject. Values that are
  equal are the same thing, so digests are injective.
- Stores that the source rewrites in place are classes whose methods are proved against specification
  functions; the theorems are about those functions.
- A store write happens completely or the process stops before it. Within one effect the model has no
  crash point.
- `Option` stands for the source's refused results, a verdict `Raises` for an exception that leaves the
  recovery loop.

## Assumptions of the main theorems

- `CrashOutcome.SubmissionSurvivesIffSafe`: the plan was made at the baseline the repository still has,
  artifacts are as the plan recorded them, with a link each, derived tasks are new, the submission would go
  through if nothing crashed (`SubmissionOutcome.LiveRunSucceedsIff` says when), and nobody else changes the
  stores until recovery has run to its end. The index is the head's tree, and a path that git ignores is
  ignored throughout. `Instances.EditSurvives` and the lemmas behind it meet these together.
- `Convergence.CrashedAcceptanceConverges`, the half behind it: every effect finds its recorded before
  image, effects are orderly (proved for submissions by `Submission.SubmissionIsOrderly`), and the commit
  can be proven (`CommitProof.ProvableIff` says when).
- `RecoveryPasses.PassDeliversIff`: the other journals of the listing are settled or stopped
  (`RecoveryPasses.OneDeliveryPerBase` says why two that commit on one head cannot both arrive).
- `AttemptAccount.RespectfulLaunchesStayWithin`: from loading a job to launching its worker nobody but its
  executor writes that job's status, and nobody makes a job active again that is not. The source does not
  enforce this: the execution lock is taken by executors alone. Without it the exact condition is
  `AttemptAccount.RecordsStayWithinIffRoom`. Jobs start pending, with no attempts and no records.
- `AttemptAccount.LaunchesAreRecorded`: no settlement is stale, that is, writes back a record that an
  admission has replaced since it was read.
- `Board.MoveTask`: nothing that looks like a heading or a row inside frontmatter or settings. The lemma
  `Board.MoveReadsBackIffVisible` says exactly when a move reads back without that.

## Where the code and its promises differ

- Only one empty directory gives way to a promoted file: a candidate that replaces a nested directory by a
  file is refused (`Instances.NestedDirectoryIsRefused`, `Instances.NestedTreeIsRefused`).
- A mode difference is invisible to the delta when the baseline entry has no mode; exactly then a delivery
  misses the candidate (`Integration.Setting.DeliveryReachesTheCandidate`,
  `Instances.UnrecordedModeIsMissed`).
- Recovery cannot prove the commit of a submission that adds a file: the intended tree is injected into an
  index without adding paths, so there is none to compare with (`CommitProof.AddedFileIsNotProvable`,
  `Instances.AddedFileIsLost`). It cannot prove one that changes nothing git sees
  (`Instances.UnseenModeIsLost`), nor one with a file that others may execute and its owner may not, because
  the recorded tree looks at all execute bits and git at the owner's (`Instances.ForeignExecutableIsLost`).
  All of these are accepted live and lost by some crash; `CommitProof.ProvableIff` is the exact condition.
- A path that turns from a file into a directory makes recovery raise, one that turns from a directory with
  something in it into a file makes it report a conflict; both are delivered live and lost in a crash
  (`Instances.FileToDirectoryIsLost`, `Instances.DirectoryToFileIsLost`). An empty directory is no obstacle.
- A delivered and settled journal of the first kind raises out of every later pass, and nothing listed
  behind it is recovered (`RecoveryPasses.SettledJournalStarvesTheRest`, `RecoveryPasses.StarvingListing`).
- An artifact that is at its destination and not linked counts as applied, so a recovery from before its
  turn never adds the link (`Instances.UnlinkedArtifactIsSkipped`).
- The recovery loop has no status filter: a refused submission, its journal abandoned and its job failed,
  is rolled forward and its job accepted, exactly when it is safe
  (`CrashOutcome.RefusedIsRolledForwardIffSafe`, `Instances.FailedJobIsAccepted`).
- The section that links derived tasks is never recognised as applied and is repeated by every replay that
  comes so far (`RecoverySafety.LinkSectionsRepeat`). The theorems compare tasks up to such trailing
  sections and the order of links.
- Recovery creates derived tasks without the publication lock. It can make the lock holder's creation fail
  (`Publication.HolderIsRefusedIffRecoveryWasFaster`, `Publication.RecoveryCanBeatTheHolder`), and when it
  writes between another creation's load and write, two tasks share an identifier and a card is lost
  (`Publication.RecoveryCanCollide`); `Publication.RunsAreOrderlyIffTimely` is the exact condition.
- Recovery's moves read the whole board and write it back later, also without the lock. A card created in
  between is lost although every creation was timely (`Publication.AMoveCanLoseACard`).
- The account of attempts is checked once, before the workspace is prepared, and nothing looks again.
  Cancelling or failing a job by hand and reconciling at a restart take no execution lock, so a job can be
  ended while it is prepared, a second one created for its work, and both launched: with limit two there can
  be three workers (`AttemptHistories.LaunchesCanExceedTheLimit`). Recorded admissions stay within the limit
  if and only if each still finds room when it is written (`AttemptAccount.RecordsStayWithinIffRoom`), and
  launches exceed it by no more than the admissions that do not
  (`AttemptAccount.LaunchesStayWithinOverdrafts`).
- A reconciliation writes back records as it read them. When the job was restarted and admitted under other
  inputs in between, the account forgets a launch (`AttemptHistories.ALaunchCanEscapeTheAccount`).
- The consumed count of attempts can go down, in four ways (`AttemptAccount.ConsumedOnlyDropsBy`), for one by
  a crash between an admission and its count, followed by an edit of the task of an unfrozen job
  (`AttemptHistories.TheConsumedCountCanDrop`).
- A crash between the two writes of a reconciliation leaves a failed job with an unsettled record that no
  later step settles unless the job is made active again (`AttemptHistories.LeftIncompleteIff`,
  `AttemptHistories.CrashedReconciliationLeavesARecord`).
- The ledger's completed count counts attempts, not tasks: it equals the number of delivered tasks exactly
  when no runner answers "delivered" before the last phase (`WorkerChain.CompletedCountsDeliveries`,
  `WorkerChain.CompletedCanExceedDeliveries`).

## Model

| member | source | states |
|---|---|---|
| FileTree.UnlinkKeepsShape | src/open_tulid/runtime/pathops.py:299-333 | removing a file, or finding nothing there, keeps the tree proper |
| FileTree.WriteKeepsShape | src/open_tulid/runtime/pathops.py:141-206 | writing a file, with missing parents made and one empty directory given up, keeps files and directories apart |
| Delivery.ChangesOfKind | src/open_tulid/runtime/candidate.py:343-367 | one pass lists exactly the changes of one kind, in path order |
| Delivery.ComputeDelta | src/open_tulid/runtime/candidate.py:343-367 | the delta has exactly one change for every path on which two manifests differ, additions then deletions then edits, each in path order; no baseline means everything is an addition |
| Delivery.CollectEffects | src/open_tulid/runtime/completion.py:1356-1429 | at most one effect per path, decided by its first change; artifacts and inadmissible paths are skipped |
| Delivery.SortByTarget | src/open_tulid/runtime/completion.py:1435-1442 | one half of the effects sorted by target, nothing lost or invented |
| Delivery.CandidateChangePlan | src/open_tulid/runtime/completion.py:1356-1443 | the plan is all deletions and then all promotions, each in target order, and holds exactly the effect decided for each path |
| Integration.Setting.DeliveryGoesThroughIffUnobstructed | src/open_tulid/runtime/completion.py:1026-1123 | running a plan on the repository at its baseline succeeds if and only if no sealed path is blocked by a directory that holds directories or ignored files, or by an ignored file above it |
| Integration.Setting.RunPrefix | src/open_tulid/runtime/completion.py:1590-1684 | after any number of effects the repository is, path by path, the closed form of that prefix |
| Integration.Setting.EveryPrefixIsTreeShaped | src/open_tulid/runtime/completion.py:1356-1443 | at every prefix of a delivery no file lies below another file |
| Integration.Setting.DeliveryReachesTheCandidate | src/open_tulid/runtime/completion.py:1446-1519 | a delivery that goes through ends at the candidate's surface outside the artifacts if and only if no mode difference was invisible to the delta (baseline entries without a recorded mode) |
| Integration.CheckChanges | src/open_tulid/runtime/completion.py:1480-1519 | the reports of the per-change checks are exactly those of the changes that went wrong |
| Integration.ValidateIntegratedSource | src/open_tulid/runtime/completion.py:1446-1519 | nothing is reported if and only if the surfaces agree outside the artifacts |
| Integration.SameSurfacePassesEveryChange | src/open_tulid/runtime/completion.py:1480-1519 | the per-change checks never report when the surface is the candidate's |
| Integration.Deliver | src/open_tulid/runtime/completion.py:1356-1519 | plan, delivery and final check composed: an unobstructed delivery ends in a tree without a file below another, leaves ignored files and artifacts alone, and nothing is reported if and only if no mode difference was invisible to the delta |
| EventLog.JsonlEventStore.Append | src/open_tulid/runtime/events.py:155-170 | a single append adds the event to its day file unless its identifier is known anywhere |
| EventLog.JsonlEventStore.AppendBatch | src/open_tulid/runtime/events.py:172-198 | a batch append leaves the log that the specification of the batch describes |
| EventLog.Prepare | src/open_tulid/runtime/events.py:172-190 | events grouped per day in order of first use, known and repeated identifiers dropped |
| EventLog.PutAllByDay | src/open_tulid/runtime/events.py:172-198 | each day file grows by exactly its own events, in order |
| EventLog.IdentifiersStayUnique | src/open_tulid/runtime/events.py:155-198 | over any sequence of appends and batches, each possibly cut by a crash, no identifier occurs twice in the log |
| EventLog.BatchContinues | src/open_tulid/runtime/events.py:172-198 | writing a half-written batch again continues exactly where it stopped |
| EventLog.OthersDoNotInterfere | src/open_tulid/runtime/events.py:172-198 | other writers' batches leave what is already written of a batch, and its order, alone |
| EventLog.BatchOccursExactlyOnce | src/open_tulid/runtime/completion.py:2209-2214 | once one write of a journal's batch completes, every event of it is in the log exactly once and in batch order within its day, whatever crashed or was written in between |
| EventLog.ExtendsContinues | src/open_tulid/runtime/events.py:172-198 | interrupted writes keep extending the log by prefixes of the batch; a complete one ends where an uninterrupted one would |
| CompletionStores.CompletionService.ApplyEffect | src/open_tulid/runtime/completion.py:1026-1123 | every branch of effect application changes the stores in place as the specification says, and a refused one leaves them alone |
| CompletionStores.CompletionService.HasConflict | src/open_tulid/runtime/completion.py:2347-2421 | the loop yields the verdict of the first effect that is not clear, an escaping exception included |
| CompletionStores.CompletionService.ReplayEffects | src/open_tulid/runtime/completion.py:2192-2201 | applied effects are skipped, others applied, and the first refusal stops the replay |
| CompletionStores.CompletionService.SettleRecovered | src/open_tulid/runtime/completion.py:2244-2274 | the job named by the journal is accepted once, with the journal's evidence and the recovered head |
| CompletionStores.CompletionService.RecoverJournal | src/open_tulid/runtime/completion.py:2142-2219 | one iteration of the recovery loop refines the specification of a recovery |
| CompletionStores.CompletionService.RecoverCompletionTransactions | src/open_tulid/runtime/completion.py:2125-2219 | the loop over all journals refines the specification of a pass, an exception ending it |
| CompletionStores.CompletionService.ApplyTransaction | src/open_tulid/runtime/transactions.py:45-146 | the live transaction refines the live run up to its first refusal |
| RecoverySafety.StrangerStopsTheJournal | src/open_tulid/runtime/completion.py:2347-2421 | if any file or artifact target, created task, moved state or the head is in neither its before nor its after image, recovery of that journal changes no store |
| RecoverySafety.PassChangesOnlyRecorded | src/open_tulid/runtime/completion.py:2347-2421 | over a whole pass a file either stays or was the before image some listed journal recorded, so does an artifact, and no task disappears or loses content or links |
| RecoverySafety.OneCommitPerJournal | src/open_tulid/runtime/completion.py:2412-2421 | however often recovery of a journal is interrupted, the head moves by at most one commit, from the recorded base |
| RecoverySafety.AcceptedOnlyWhenProven | src/open_tulid/runtime/completion.py:2174-2191 | recovery turns a job into an accepted one only when its journal is committed, the task is in the expected state, the surface equals the candidate, and the head is the commit with the intended parent, tree and subject |
| RecoverySafety.SettledJournalIsLeftAlone | src/open_tulid/runtime/completion.py:2178-2191 | once a journal is committed and its job accepted, further passes change nothing |
| RecoverySafety.LinkSectionsRepeat | src/open_tulid/runtime/completion.py:2289-2321 | the links of derived tasks are never recognised as applied: over any number of recoveries of a journal, each cut anywhere, every one that comes past a link effect adds its section again, and nothing else adds one |
| RecoveryRuns.OneCommitPerJournalInAnyHistory | src/open_tulid/runtime/completion.py:2424-2467 | over any history of recoveries of any journals, cut anywhere, with other actors in between who do not take the branch back, recovering one journal moves the head at most once |
| RecoveryRuns.UnrecordedFilesSurvive | src/open_tulid/runtime/completion.py:2347-2421 | a file that no journal recorded as the image it replaces, and an absence no journal was to fill, outlive any history of recoveries |
| RecoveryRuns.UnrecordedArtifactsSurvive | src/open_tulid/runtime/completion.py:2367-2390 | the same for artifacts |
| RecoveryRuns.TasksSurvive | src/open_tulid/runtime/completion.py:1038-1068 | no history of recoveries loses a task, its content or a link of it |
| RecoveryRuns.AcceptedJobsWereProven | src/open_tulid/runtime/completion.py:2174-2218 | a job that became accepted in a history did so at some turn, on a committed journal of its own and proof of task state, surface and commit |
| Recovery.RepoStep | src/open_tulid/runtime/completion.py:2193-2199 | one file effect applied live and replayed on a mixture keeps the two repositories comparable, empty directories at its target included |
| Recovery.ArtifactStep | src/open_tulid/runtime/completion.py:2310-2318 | the same for an artifact, recognised by its content alone |
| Recovery.MoveStep | src/open_tulid/runtime/completion.py:2289-2321 | the same for the move of the task |
| Recovery.CreateStep | src/open_tulid/runtime/completion.py:2324-2344 | the same for a created task, recognised by its identity |
| Recovery.CommitEffectStep | src/open_tulid/runtime/completion.py:2424-2467 | the same for a commit that can be proven: live it is made, and the replay makes it or recognises the tip |
| Recovery.Simulate | src/open_tulid/runtime/completion.py:2192-2207 | the uninterrupted run and the replay of any mixture of before and after images go through together, effect by effect, as far as their commit can be proven (exactly when: CommitProof.ProvableIff) |
| Recovery.SitesMeet | src/open_tulid/runtime/completion.py:2192-2207 | and end in the same repository, artifacts, tasks and head (up to repeated derived-task sections and link order) |
| Recovery.CrashesLeaveMixtures | src/open_tulid/runtime/completion.py:1026-1123 | a crash between two effects of the live run or of a replay, the commit being provable, leaves every effect in its before or its after image |
| Convergence.LiveCrash | src/open_tulid/runtime/transactions.py:45-146 | a submission that crashes anywhere, its effects fresh and its commit provable, leaves a journal that recovery can finish |
| Convergence.RecoveryCrash | src/open_tulid/runtime/completion.py:2125-2219 | so does any interrupted recovery |
| Convergence.SettlesLikeLive | src/open_tulid/runtime/completion.py:2244-2274 | settling from the journal's evidence gives the job record the live submission writes |
| Convergence.RecoveryConverges | src/open_tulid/runtime/completion.py:2125-2219 | one complete recovery from any such state reaches the uninterrupted end, with the journal committed and the job accepted |
| Convergence.CrashedAcceptanceConverges | src/open_tulid/runtime/completion.py:2125-2219 | the forward half of the main theorem: when effects are fresh and the commit provable, crash anywhere, interrupt recovery any number of times, and the first recovery that runs to its end reaches the state of the submission that never crashed; every later one is idle (the converse is CrashOutcome.SubmissionSurvivesIffSafe) |
| Submission.SubmissionIsOrderly | src/open_tulid/runtime/completion.py:573-605 | the effects a submission journals never write the same thing twice and keep files before the one commit, when no path changes its kind |
| Submission.PlannedFileIsFresh | src/open_tulid/runtime/completion.py:1356-1443 | a plan made at the baseline finds every file as it recorded it, an empty directory in the place of a file included |
| Submission.FileToDirectoryRaises | src/open_tulid/runtime/completion.py:2406-2411 | a repository file above a delivered path is deleted by the plan, and after the delivery the recovery check of that deletion hashes a directory and raises |
| Submission.DirectoryToFileConflicts | src/open_tulid/runtime/completion.py:2378-2390 | a delivered path that is a directory with something in it is promoted by the plan, and at the baseline the recovery check of that promotion reports a conflict |
| SubmissionOutcome.LiveRunSucceedsIff | src/open_tulid/runtime/transactions.py:45-146 | a live run succeeds if and only if nothing is in the way of a delivered file, no mode difference was invisible to the delta, and git takes the commit: its paths can be added, and when nothing changed the work tree is clean |
| SubmissionOutcome.LiveRunLasts | src/open_tulid/runtime/completion.py:573-685 | a live run that succeeds leaves the lasting outcome: the candidate's surface delivered and ignored files untouched, artifacts with their links, derived tasks, the move, one commit exactly when git sees a change, every event once, the journal committed and the job accepted |
| SubmissionOutcome.EffectsGoThroughIff | src/open_tulid/runtime/completion.py:1026-1123 | the effects go through exactly when the files and the commit do, and then all of them are there |
| CrashOutcome.SafeIsJustPrepared | src/open_tulid/runtime/completion.py:573-603 | the journal of a safe submission satisfies everything convergence relies on |
| CrashOutcome.SubmissionSurvivesCrashes | src/open_tulid/runtime/completion.py:2125-2219 | a safe submission that crashes anywhere, with recovery interrupted any number of times, reaches the lasting outcome at the first recovery that runs to its end, and no later one changes anything |
| CrashOutcome.FilledDirectoryStops | src/open_tulid/runtime/completion.py:2378-2390 | a delivered path that is a filled directory: recovery of a crash before the first effect changes nothing, and the job stays open |
| CrashOutcome.ReplacedFileStops | src/open_tulid/runtime/completion.py:2406-2411 | a repository file above a delivered path: recovery of a crash behind the files changes nothing, and the job stays open |
| CrashOutcome.UnlinkedArtifactIsLost | src/open_tulid/runtime/completion.py:2310-2315 | an artifact that is there and not linked: recovery never adds the link |
| CrashOutcome.AcceptedIsProvable | src/open_tulid/runtime/completion.py:2424-2467 | where a first recovery reaches the outcome, the recorded tree is the one git makes and differs from the base tree |
| CrashOutcome.SubmissionSurvivesIffSafe | src/open_tulid/runtime/completion.py:2125-2219 | main theorem: a submission that would go through reaches the lasting outcome after every crash and every number of interrupted recoveries if and only if it keeps the kinds of its paths, its commit can be proven, and artifacts that are there are linked |
| CrashOutcome.RefusedIsRolledForwardIffSafe | src/open_tulid/runtime/transactions.py:77-103 | a submission refused before its artifacts by something passing, its journal abandoned and its job failed, is turned by one recovery into the lasting outcome, the job accepted, wherever it was refused, if and only if it is safe |
| CommitProof.IntendedOfFiles | src/open_tulid/runtime/completion.py:2510-2581 | the recorded tree path by path: there is one if and only if every promoted file is tracked |
| CommitProof.AddedFileIsNotProvable | src/open_tulid/runtime/completion.py:2510-2581 | a submission that adds a file to a git repository cannot prove its commit |
| CommitProof.ProvableIff | src/open_tulid/runtime/completion.py:2499-2581 | a commit can be proven later if and only if every promoted file is tracked, is executable for its owner when it is for anybody, and git sees some change |
| Instances.TrackedSubmissionSurvivesIff | src/open_tulid/runtime/completion.py:2125-2219 | the main theorem read off a delivery in a repository that git tracks completely: it goes through, and survives if and only if it keeps kinds, adds no file, keeps execute bits plain and changes something git sees |
| Instances.EditSurvives | src/open_tulid/runtime/completion.py:924-1024 | concrete: the edit of one tracked file satisfies all hypotheses and survives everything |
| Instances.UnseenModeIsLost | src/open_tulid/runtime/completion.py:1769-1771 | concrete: a change of mode that git does not see goes through live and is lost by some crash |
| Instances.AddedFileIsLost | src/open_tulid/runtime/completion.py:2510-2581 | concrete: so is a new file |
| Instances.ForeignExecutableIsLost | src/open_tulid/runtime/completion.py:2499-2507 | concrete: so is a file executable for others and not for its owner |
| Instances.FileToDirectoryIsLost | src/open_tulid/runtime/completion.py:2406-2411 | concrete: so is a file that becomes a directory |
| Instances.DirectoryToFileIsLost | src/open_tulid/runtime/completion.py:2378-2390 | concrete: so is a directory that becomes a file |
| Instances.ChangesOfKindAreLost | src/open_tulid/runtime/completion.py:2378-2411 | both happen in repositories of a single file |
| Instances.UnlinkedArtifactIsSkipped | src/open_tulid/runtime/completion.py:2310-2315 | concrete: so is an artifact that was there and not linked |
| Instances.FailedJobIsAccepted | src/open_tulid/runtime/completion.py:2142-2219 | concrete: an edit refused at its commit, its journal abandoned and its job failed, is committed and accepted by recovery |
| Instances.UnrecordedModeIsMissed | src/open_tulid/runtime/candidate.py:343-367 | concrete: a change of a mode the baseline did not record gives an empty plan, a repository that is not the candidate, and a refused live run |
| Instances.NestedDirectoryIsRefused | src/open_tulid/runtime/completion.py:1629-1684 | concrete: a candidate whose file replaces a nested directory is refused, since only one empty directory is given up |
| Instances.NestedTreeIsRefused | src/open_tulid/runtime/completion.py:1629-1684 | and so is one in a repository of a single file |
| RecoveryPasses.StandingPass | src/open_tulid/runtime/completion.py:2142-2219 | a pass over settled or stopped journals changes nothing, and raises exactly when one of them does |
| RecoveryPasses.RaisingIff | src/open_tulid/runtime/completion.py:2391-2411 | a journal raises, committed or not, exactly when recovery considers it and the first of its effects that is not clear deletes what has become a directory |
| RecoveryPasses.SettledStands | src/open_tulid/runtime/completion.py:2178-2191 | a committed journal whose job is accepted is one that changes nothing |
| RecoveryPasses.StrangerStands | src/open_tulid/runtime/completion.py:2347-2421 | so is one with an intervening change in its scope |
| RecoveryPasses.PassDeliversIff | src/open_tulid/runtime/completion.py:2125-2219 | one complete pass after a crash and interrupted recoveries, the other listed journals settled or stopped, leaves the lasting outcome if and only if no journal listed before raises |
| RecoveryPasses.OneDeliveryPerBase | src/open_tulid/runtime/completion.py:2412-2421 | of two crashed submissions that commit on the same head a pass delivers one: once it has moved the head the other stands |
| RecoveryPasses.SettledJournalStarvesTheRest | src/open_tulid/runtime/completion.py:2406-2411 | a delivered, committed and accepted submission that put a file below the name of another one raises in every pass: whatever is listed behind it is not recovered |
| RecoveryPasses.StarvingListing | src/open_tulid/runtime/completion.py:2142-2219 | the starving listing: with such a journal first, the pass leaves a prepared submission open that a pass over it alone delivers |
| RecoveryPasses.ThereIsAStarvingListing | src/open_tulid/runtime/completion.py:2142-2219 | such deliveries exist |
| CycleSearch.CycleSearch.Visit | src/open_tulid/runtime/completion.py:1989-2006 | the depth-first search keeps the stack a walk, its elements the on-stack set, and finished nodes in dependency order as long as nothing was reported |
| CycleSearch.CycleSearch.ReportCycle | src/open_tulid/runtime/completion.py:1992-1998 | a reported path is a genuine closed walk |
| CycleSearch.CycleSearch.Leave | src/open_tulid/runtime/completion.py:2004-2006 | leaving a node pops it from stack and on-stack set together |
| CycleSearch.OrderedIsAcyclic | src/open_tulid/runtime/completion.py:1977-2011 | a graph all of whose nodes are in dependency order has no closed walk |
| CycleSearch.DerivedCycleErrors | src/open_tulid/runtime/completion.py:1977-2011 | no error if and only if the in-batch dependency graph is acyclic, self-loops included; every reported path is a closed walk |
| CycleSearch.CyclesCarryBack | src/open_tulid/runtime/completion.py:1954-1968 | renaming identifiers creates no cycle |
| Numerals.DecimalReadsBack | src/open_tulid/runtime/completion.py:2017-2025 | decimal identifiers read back as the number they were written from, without leading zeros |
| Numerals.DecimalInjective | src/open_tulid/runtime/completion.py:2017-2025 | distinct numbers have distinct identifiers |
| Numerals.DecimalIsNumericId | src/open_tulid/runtime/completion.py:2014-2025 | every allocated identifier has the shape of a numeric task identifier |
| DerivedBatch.AllocateNumericTaskIds | src/open_tulid/runtime/completion.py:2017-2025 | identifiers are the numbers after the highest numeric one in use, in batch order |
| DerivedBatch.AllocatedIsFresh | src/open_tulid/runtime/completion.py:2017-2025 | such an identifier is not in use, whether the existing ones are numbers or ULIDs |
| DerivedBatch.ParseSources | src/open_tulid/runtime/completion.py:1872-1907 | nothing is reported if and only if every file parses and local identifiers are distinct, and then the drafts are the files' in order |
| DerivedBatch.CheckDraft | src/open_tulid/runtime/completion.py:1909-1949 | a draft passes if and only if it is new, does not depend on itself and depends only on its batch |
| DerivedBatch.CheckBatch | src/open_tulid/runtime/completion.py:1909-1952 | a batch passes if and only if every draft does and the dependencies are acyclic |
| DerivedBatch.BuildTasks | src/open_tulid/runtime/completion.py:1954-1974 | the planned tasks mirror the drafts, identifiers and dependencies renamed |
| DerivedBatch.CheckSchemas | src/open_tulid/runtime/completion.py:1969-1973 | nothing is reported if and only if every body has a valid schema where one is required |
| DerivedBatch.DerivedTaskPlan | src/open_tulid/runtime/completion.py:1853-1974 | all or nothing: a plan exactly when the batch is acceptable, otherwise errors and no plan; cycle errors are closed walks of the batch |
| DerivedBatch.AcceptedBatchIsSound | src/open_tulid/runtime/completion.py:1853-1974 | an accepted batch has distinct fresh identifiers, every dependency inside the batch and an acyclic result |
| Publication.LockedPublicationsNeverCollide | src/open_tulid/runtime/completion.py:84-104 | as long as recovery writes nothing: over any interleaving of publishers, crashes and loads no two tasks share an identifier, every task keeps file, card and parent, and no creation or move of a publisher is refused; from the lock and the allocation above the highest number |
| Publication.WriteKeepsIffTimely | src/open_tulid/adapters/obsidian.py:156-253 | the write of a creation or a move keeps the project loadable, every task with its file, parent and card, and every other card in its column, if and only if the board it had read is the current one but for its own card |
| Publication.RunsAreOrderlyIffTimely | src/open_tulid/runtime/completion.py:2192-2201 | with recovery creating and moving without the lock, over any interleaving: identifiers stay unique, every task keeps file, card and parent, and every card its column but for its own moves, if and only if every write was timely |
| Publication.HolderIsRefusedIffRecoveryWasFaster | src/open_tulid/adapters/obsidian.py:160-165 | the lock holder's next creation is refused if and only if recovery has written a task with that identifier since the lock was taken |
| Publication.RecoveryCanCollide | src/open_tulid/adapters/obsidian.py:156-195 | a concrete run in which recovery writes between the holder's load and write: two tasks with one identifier, the card of one lost |
| Publication.RecoveryCanBeatTheHolder | src/open_tulid/runtime/completion.py:2193-2199 | a concrete run, every write timely, in which the holder's creation is refused |
| Publication.AMoveCanLoseACard | src/open_tulid/adapters/obsidian.py:197-253 | a run in which every creation is timely and a card is lost: recovery had read the board for a move and writes it back |
| AttemptRecords.AttemptIdTextInjective | src/open_tulid/runtime/attempts.py:121-123 | attempt identities written as job and number never coincide |
| AttemptRecords.UpsertReplaces | src/open_tulid/runtime/jobs.py:235-274 | upserting an existing number of a chain replaces that record in place |
| AttemptRecords.UpsertAppends | src/open_tulid/runtime/jobs.py:235-274 | upserting the next number appends |
| AttemptRecords.FileExecutionJobStore.FindActive | src/open_tulid/runtime/jobs.py:218-229 | exactly the active jobs of one project, task and transition |
| AttemptRecords.FileExecutionJobStore.Create | src/open_tulid/runtime/jobs.py:64-94 | a job is stored if and only if no job for the same work is active |
| AttemptRecords.FileExecutionJobStore.UpdateStatus | src/open_tulid/runtime/jobs.py:159-198 | one job gets status and attempt count, every other job, the listing and all records stay, and the consumed count moves only by what a job without records stands for |
| AttemptRecords.FileExecutionJobStore.RecordAttempt | src/open_tulid/runtime/jobs.py:235-274 | the records of one job become the upsert of one record, ordered by number |
| AttemptRecords.FileExecutionJobStore.SettleInterruptedAttempts | src/open_tulid/runtime/jobs.py:276-321 | one upsert per incomplete record amounts to reconciling them all |
| AttemptRecords.SettlingKeepsTheAccount | src/open_tulid/runtime/attempts.py:201-232 | settlement keeps numbers, predecessors, revisions and the count, and leaves nothing admitted or running |
| AttemptRecords.CountConsumedAttempts | src/open_tulid/runtime/attempts.py:235-312 | the loop computes the account: recorded admissions of the revision, all records of a job frozen at it, and at least one attempt for a started job without records |
| AttemptBudget.PrecedingInChain | src/open_tulid/runtime/executor.py:775-786 | the highest record below a number is the one just before it |
| AttemptBudget.AdmissionInChain | src/open_tulid/runtime/executor.py:688-728 | an admission extends the chain by one, or takes the place of the record a crash left uncounted |
| AttemptBudget.StepSummary | src/open_tulid/runtime/executor.py:312-690 | a step other than a creation touches one job: it admits, cutting back to the counted records and adding one, launches, writes a stale record back, or leaves the recorded revisions as they are |
| AttemptBudget.RunsKeepTheChain | src/open_tulid/runtime/executor.py:688-830 | in every reachable state, whoever writes what and when, each job's records are numbers 1 to m with attempts <= m <= attempts + 1, each naming the record before it |
| AttemptAccount.RecordedWithinConsumed | src/open_tulid/runtime/attempts.py:235-312 | recorded admissions of a revision never exceed what the account says was consumed |
| AttemptAccount.RecordedChange | src/open_tulid/runtime/executor.py:688-728 | whatever the step, the recorded admissions of a work and revision move by one for what enters (a new admission, a stale settlement bringing a record back), by one for what leaves (a record overwritten under other inputs), and never otherwise |
| AttemptAccount.RecordsStayWithinIffRoom | src/open_tulid/runtime/executor.py:360-466 | over every run, status writes and reconciliations at any stage included: recorded admissions stay within the limit at every moment if and only if every write that enters one still finds room, although only the check before it looked |
| AttemptAccount.LaunchesAreRecorded | src/open_tulid/runtime/executor.py:449-578 | over every run without a stale settlement the workers launched for a work and revision are at most its recorded admissions, and these at most the consumed count |
| AttemptAccount.LaunchesStayWithinTheLimit | src/open_tulid/runtime/executor.py:832-862 | over every such run launches stay within the limit as long as every admission still finds room when it is written |
| AttemptAccount.LaunchesStayWithinOverdrafts | src/open_tulid/runtime/executor.py:832-862 | and otherwise exceed it by no more than the admissions written without room |
| AttemptAccount.UndisturbedAdmissionsFindRoom | src/open_tulid/runtime/executor.py:360-466 | the one check is enough when, at every admission, no other executor holds a check of the same account |
| AttemptAccount.PreparesAlone | src/open_tulid/runtime/executor.py:312-478 | while nobody else writes the status of a job being prepared, or makes a job active again, one executor at a time is between checking and launching for a work |
| AttemptAccount.RespectKeepsOrder | src/open_tulid/runtime/executor.py:312-478 | under that condition every step keeps one active job per work, no preparing executor on a finished job, and no settlement stale |
| AttemptAccount.RespectfulLaunchesStayWithin | src/open_tulid/runtime/executor.py:832-862 | so over every such run, with crashes, repairs, new jobs and reconciliation, the workers launched for one work and revision never exceed the limit in force, nor the consumed count |
| AttemptAccount.ConsumedOnlyDropsBy | src/open_tulid/runtime/attempts.py:235-312 | the consumed count goes down exactly when a re-admission overwrites an uncounted record under changed inputs, a stale settlement overwrites a record, a job that counted without records admits under other inputs, or returns to pending; and then by one |
| AttemptHistories.LaunchesCanExceedTheLimit | src/open_tulid/cli/main.py:622-639 | a reachable state under limit two with three launches: a job being prepared for repair is cancelled, a second job created for its work, and both executors go by the check they made |
| AttemptHistories.CheckedIsLaunched | src/open_tulid/runtime/executor.py:449-578 | from a passed check an executor admits, counts, marks and launches, whatever has become of its job or of the account |
| AttemptHistories.TheConsumedCountCanDrop | src/open_tulid/runtime/executor.py:449-478 | a reachable state in which a re-admission overwrites a record |
| AttemptHistories.ALaunchCanEscapeTheAccount | src/open_tulid/runtime/jobs.py:276-321 | a reachable state in which a worker was launched for inputs of which the account says nothing was consumed: a reconciliation wrote back what it had read before the admission |
| AttemptHistories.NobodySettles | src/open_tulid/cli/main.py:2446-2465 | the records of a job that is over, and that no reconciliation will still change, stay as they are in every continuation that does not make the job active again |
| AttemptHistories.LeftIncompleteIff | src/open_tulid/cli/main.py:2446-2465 | incomplete records of a job that is over stay so in every such continuation if and only if no reconciliation at work on it has still to read them or to write a change |
| AttemptHistories.CrashedReconciliationLeavesARecord | src/open_tulid/cli/main.py:2453-2465 | such a record is reachable: the reconciliation crashes between failing the job and settling it |
| LinkedContext.Remember | src/open_tulid/runtime/context.py:82-93 | the reference is listed under its content, and the document of that content, if any, takes over the marks |
| LinkedContext.ReachedIsFound | src/open_tulid/runtime/context.py:120-185 | first-in first-out order has found every content within the cut-off at no more than its least depth, so neither the cut-off nor deduplication loses a document |
| LinkedContext.OfferedIsServed | src/open_tulid/runtime/context.py:120-185 | every reference the search comes across within the cut-off has been served |
| LinkedContext.ReadReference | src/open_tulid/runtime/context.py:118-153 | a visible reference leads to the content of its one readable file, or to the problem it has, or to nothing when it is optional and missing |
| LinkedContext.AddContent | src/open_tulid/runtime/context.py:138-185 | a resolved content is remembered, becomes a new document whose links join the queue, or breaks a limit |
| LinkedContext.BuildContextPacket | src/open_tulid/runtime/context.py:114-198 | a packet comes out if and only if no offered reference is faulty and nothing overflows the limits; it then holds exactly the contents reachable within the depth, once each, with exactly the processed references that lead to them, required exactly where a required seed leads; every reported problem is a real one |
| LinkedContext.FinishedIsFaithful | src/open_tulid/runtime/context.py:187-198 | the packet read off an exhausted search keeps those promises |
| LinkedContext.FinishedIsFaultless | src/open_tulid/runtime/context.py:98-176 | an exhausted search without reports met no fault and no overflow |
| BoardLines.KindsAreTheTests | src/open_tulid/adapters/obsidian.py:933-949 | the board reader and the insertion search agree on what is a heading and what is a task row |
| Board.ReadBoard | src/open_tulid/adapters/obsidian.py:530-595 | the reader computes the board's cards with their columns, and the line each card is on |
| Board.FindColumnInsertIndex | src/open_tulid/adapters/obsidian.py:933-949 | the position behind the last row of the first section with the title, found exactly when there is one |
| Board.Removing | src/open_tulid/adapters/obsidian.py:229-230 | popping the line of a card takes away that card and nothing else |
| Board.Inserting | src/open_tulid/adapters/obsidian.py:231-238 | what a row inserted at a position reads as: a card of the column there, an error, or nothing inside frontmatter or settings |
| Board.MoveReadsBackIffVisible | src/open_tulid/adapters/obsidian.py:229-238 | a move reads back as one card in the target column and all others unchanged in order if and only if the reader stands visibly in that column where the line goes |
| Board.MovedLast | src/open_tulid/adapters/obsidian.py:229-238 | with no heading or row hidden in frontmatter or settings it does, and the card is the last of the column when its heading is not repeated |
| Board.StateReadsBack | src/open_tulid/adapters/obsidian.py:604-632 | with distinct columns, a card put where a state is mapped reads back as that state |
| Board.MoveTask | src/open_tulid/adapters/obsidian.py:197-253 | exactly when a move is refused, exactly when nothing has to move, and otherwise a board with the same lines that reads as moved: with distinct columns the moved note reads as the requested state, every other note as before, and the board loads |
| Board.MovedReadsAs | src/open_tulid/adapters/obsidian.py:604-632 | a board that reads as moved loads, reads the note as the requested state and every other note as before |
| Board.MoveTaskOnText | src/open_tulid/adapters/obsidian.py:197-253 | the same on the text of the board, every line classified by the parser's tests |
| Board.HiddenHeadingLosesTheCard | src/open_tulid/adapters/obsidian.py:933-949 | boards with a heading inside frontmatter on which the moved card vanishes |
| Board.HiddenHeadingIsText | src/open_tulid/adapters/obsidian.py:530-595 | such a board as text |
| AtomicWrite.FileSystem.PrepareAll | src/open_tulid/adapters/obsidian.py:660-675 | temporary files hold the new contents and the originals are noted; no target changes |
| AtomicWrite.FileSystem.ReplaceAll | src/open_tulid/adapters/obsidian.py:677-679 | the targets done so far hold their new contents |
| AtomicWrite.FileSystem.RestoreAll | src/open_tulid/adapters/obsidian.py:680-690 | restoring in reverse brings every target back, duplicate targets included, unless one of its own instants fails; then only targets can differ |
| AtomicWrite.FileSystem.DiscardAll | src/open_tulid/adapters/obsidian.py:691-696 | no temporary file is left unless one of its own instants fails |
| AtomicWrite.FileSystem.WritePrepared | src/open_tulid/adapters/obsidian.py:655-701 | over every schedule of failing instants: it succeeds if and only if none of its operations fails, and then every content is installed; if the first failure is followed by none while it rolls back, every file is as before and no temporary file is left; in any case only targets differ |
| AtomicWrite.InstalledContent | src/open_tulid/adapters/obsidian.py:677-679 | each target ends with the content of its last write |
| ChunkedBody.Stream.ReadLine | src/open_tulid/runtime/completion_http.py:141-141 | a line ends at its line feed or at the limit |
| ChunkedBody.Stream.ReadChunk | src/open_tulid/runtime/completion_http.py:166-178 | a chunk is its data and terminator, or nothing |
| ChunkedBody.Stream.ReadTrailers | src/open_tulid/runtime/completion_http.py:154-160 | trailer lines are consumed up to the empty line |
| ChunkedBody.Stream.ReadChunkedBody | src/open_tulid/runtime/completion_http.py:138-178 | the loop over the stream computes the decoder function, result and remaining input |
| ChunkedBody.SizeBack | src/open_tulid/runtime/completion_http.py:147-153 | a size line of section 7.1 of RFC 9112 parses back to its size, extension or not |
| ChunkedBody.DecodeChunks | src/open_tulid/runtime/completion_http.py:138-178 | decoding encoded chunks collects their data, or stops as too large exactly when it is |
| ChunkedBody.DecodeEncode | src/open_tulid/runtime/completion_http.py:138-178 | decoding an encoded message yields its payload and stops right behind it, or reports too large exactly when the payload is |
| ChunkedBody.BodyWithinLimit | src/open_tulid/runtime/completion_http.py:161-172 | on any input an accepted body is within the limit |
| Ulid.DecodeEncode | src/open_tulid/runtime/events.py:67-74 | 26 characters decode back to the value |
| Ulid.Alphabet | src/open_tulid/runtime/events.py:27-27 | the 32 symbols are those of the source, in order |
| Ulid.EncodeInjective | src/open_tulid/runtime/events.py:67-74 | distinct values have distinct identifiers |
| Ulid.OrderIsNumeric | src/open_tulid/runtime/events.py:67-74 | string order of encoded values of one length is numeric order |
| Ulid.Characters | src/open_tulid/runtime/events.py:71-74 | the shifting loop writes the digits most significant first |
| Ulid.NewUlid | src/open_tulid/runtime/events.py:67-74 | the identifier of a millisecond and a random part is the encoding of their value |
| Ulid.LaterSortsLater | src/open_tulid/cli/main.py:1663-1671 | identifiers are unique per millisecond and random part, and one from a later millisecond sorts later, as newest-job selection needs |
| WorkerChain.Ledger.StartTask | examples/wealthy-scholar-verification/prove_workers/prove_workers.py:212-215 | a task is appended under the next identifier |
| WorkerChain.Ledger.RecordAttempt | examples/wealthy-scholar-verification/prove_workers/prove_workers.py:217-222 | an attempt is appended to its own entry and nothing else changes |
| WorkerChain.RunRound | examples/wealthy-scholar-verification/prove_workers/prove_workers.py:334-352 | one round calls the runner for each phase in turn, records each answer, an exception included, and stops at the first that does not pass |
| WorkerChain.RunRounds | examples/wealthy-scholar-verification/prove_workers/prove_workers.py:333-362 | a task makes at most budget plus one rounds on consecutive calls of the runner, all but the last unsuccessful, and gives up only when they are used up |
| WorkerChain.RunTask | examples/wealthy-scholar-verification/prove_workers/prove_workers.py:319-362 | one task is blocked exactly on an undelivered dependency, refused on a negative budget, or driven through its rounds, and its ledger entry holds exactly the records of the runner's answers |
| WorkerChain.RunChain | examples/wealthy-scholar-verification/prove_workers/prove_workers.py:307-363 | for any runner, which may answer by how often it was called, the ledger is extended by exactly the entries of a well-formed run: blocked exactly on undelivered dependencies, rounds within budget, every record an answer of the runner at its call |
| WorkerChain.DeliveryFollowsDependencies | examples/wealthy-scholar-verification/prove_workers/prove_workers.py:319-328 | whatever a delivered task depends on was delivered before it |
| WorkerChain.DeliveredRanEveryPhase | examples/wealthy-scholar-verification/prove_workers/prove_workers.py:353-356 | for a delivered task the runner was called for every phase in turn in its final round, within the budget, passed each, and answered the last one with a delivery |
| WorkerChain.CompletedCountsDeliveries | examples/wealthy-scholar-verification/prove_workers/prove_workers.py:227-236 | the summary's completed count is at least the number of delivered tasks, and equals it if and only if no answer before the last phase is a delivery |
| WorkerChain.CompletedCanExceedDeliveries | examples/wealthy-scholar-verification/prove_workers/prove_workers.py:227-236 | a runner for which it is larger |

## Left out

- Compensation after a refused effect of a live transaction: the model follows a live run up to its first
  refusal.
- Crashes inside one effect (a half-copied file, a link not yet written, an index staged and not
  committed), torn log lines and the human log.
- The event that reports a refused transaction, and what compensation does once artifacts were promoted.
- Symbolic links and the no-follow walk of `pathops.py`, apart from its directory behaviour.
- Git plumbing below trees: object names, filters, hooks, submodules, and a path of the commit that has
  become a directory, which git would add with everything in it.
- Journals without a candidate, and the older rule that treats a journal without artifact paths specially.
- Changes by other actors in the middle of a recovery pass; between passes they are covered by
  `RecoverySafety`.
- AttemptAccount.RespectfulLaunchesStayWithin: the executor is a step system over values instead of a class,
  so that a crash or another process can fall between any two of its writes; leases, workspaces, prompts
  and the worker itself are not modelled.
- AttemptAccount.LaunchesAreRecorded: the executor's update of one of its own records reads and writes in one
  step, and so do its decisions after a worker has ended and the check of the account, which the source reads
  job by job.
- Deadlines, clocks and evidence in job and attempt metadata: baselines and proxy sessions.
- Jobs that older versions left with attempts and without records.
- Two frozen descriptions in one job (a contract and planning inputs): a job has one frozen revision here.
- How the seed references of a context packet are collected from tasks and parents. Link patterns and the
  role predicates are parameters.
- Board files split into lines and joined again, white space beyond ASCII, moves between boards (refused
  by the source), and the cached state in the task file.
- Directories made by a multi-file write, which its rollback leaves behind.
- The declared-length path of a completion request and HTTP status codes.
- Reading YAML, matching regular expressions other than task rows and numeric identifiers, SHA-256.
- Docker, subprocesses, servers, daemons, command-line output and prompt assembly.
- Markdown rendering, notes and identity of the chain ledger, and its atomic file writes.
- Convergence.CrashedAcceptanceConverges: assumes fresh effects and a provable commit;
  CrashOutcome.SubmissionSurvivesIffSafe shows that a submission needs exactly these. It compares tasks up to
  trailing derived-task sections and link order, because a replay repeats the former.
- CrashOutcome.RefusedIsRolledForwardIffSafe: covers refusals before the first artifact, where nothing is
  compensated.
- RecoveryPasses.PassDeliversIff: one journal in flight at a time; several crashed submissions that commit
  on different heads, or do not commit, are not followed through a pass.
- Publication.RunsAreOrderlyIffTimely: a load, and a write of a task file and its board, count as one step
  each; a card's place within its column, the state cached in a task file and the links written to a parent
  are not kept; users who edit the project by hand are not modelled.
- LinkedContext.BuildContextPacket: starts from a seeded queue; the rendered text of the packet and its
  digest are not modelled.
- WorkerChain.Ledger.RecordAttempt: entry identifiers are the positions themselves instead of their
  decimal text.
