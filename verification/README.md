# Verification of the Jellyfin show organizer

This project models the parts of the organizer that move media files or decide
which files may be moved, and proves what they are relied on for. It has four parts.

**Crash-safe moves.** `execute_apply`, `execute_quarantine` and
`execute_quarantine_restore` move groups of files with renames that never replace,
write a journal line before and after each move, roll a failed attempt back, and
resume from the journal. The outside world is a map from locations to files and an
append-only journal (`MediaStore`, `JournalDevice`). Every append, rename and directory
step, and every look at files or journal, consults a schedule of faults: it may proceed,
fail, take effect and raise all the same, write all of a line but its end, leave a torn
line, create the journal file without writing to it, or be the last step of the process.
A failing look stands for a file that cannot be read and for an interrupt that arrives
while it is hashed; looks that follow one another without anything between them are one
step. A theorem that quantifies over schedules therefore speaks of every failure and every
stop of these steps. `JournalFacts` holds what every step of every protocol does to files
and journal. Each executor exists twice: as methods with loops over a mutable volume and journal
(`ApplyMachine`, `QuarantineMachine`, `RestoreMachine`), and as a function of the disk and
the schedule (`ApplyExecution`, `QuarantineExecution`, `QuarantineRestore`). The methods
are proved to compute the function, and the theorems are proved of the function, over
any sequence of fresh and resumed runs. `ApplyApproval` and `QuarantineApproval` state in the
attributes of the files what a run demands and what it may move; they spell out what an
approval means (`JournalFacts.HasAttributes`) instead of relying on the test that the
executors use.

**Paths.** `Destination` escapes, truncates and fits path components, `Preflight`
validates paths by its own rules, `FittingTheorems` connects the two; `FittedPath` says what
a fitted path is made of, `PathRules` what the codes mean in characters. Text is a sequence
of code points in normalization form C.

**What may be moved.** `ContractDerivation` derives the apply contract, and
`PreflightCollisions` and `PreflightReadiness` say how far a ready preflight vouches for
its paths; `QuarantineDerivation` derives the quarantine plan and `DerivedPlan` connects it
to the executor's assumptions; `JournalReplay` is the strict reading of a journal.

**Identity guards.** `EpisodeClaims`, `EpisodePipeline`, `EpisodeRecovery` and
`EpisodeAssignment` model the assignment of sources to provider episodes for arbitrary
matchers; `EpisodeRules`, `EpisodeTitles` and `EpisodeOutcome` say source by source when its
passes apply and what they come to; `DuplicateClaims`
the connected components of overlapping claims; `DuplicateClassifier` and `ReleaseQuality`
the choice among duplicates; `CompactAbbreviation` the search for a unique abbreviation.

`dfyconfig.toml` lists all files. `Ordering` and `SortedSets` hold what several modules
need about sorting, counting and sets.

## How to read the theorems

The move protocols assume what a derived contract or plan promises: unique ids and journal
keys (`WellFormed`), and that no two moving members share a source or a destination
(`DistinctPaths`); for quarantine also that nothing is moved to where something is moved
from (`RootsApart`) and that no winner's place is a moved file's place (`WinnersApart`). How
far derivation and preflight establish these is proved too, exactly, for roots that may be
one or lie one inside the other: see `ContractDerivation.ContractIsWellFormed`,
`PreflightReadiness.ReadyMeansDistinctExactly`, `DerivedPlan.DerivedPlanIsWellFormed`,
`DerivedPlan.RootsApartExactly` and `DerivedPlan.WinnersApartExactly`. Conservation of files (`ApplyConservation`,
`QuarantineConservation`, `RestoreConservation`) needs no assumption at all.

`Lawful` describes the disks that runs can leave behind; `RunIsLawful` and
`CampaignIsLawful` show that every run, from a missing journal on, stays among them. A
journal has lines and a shape: the file may be missing, end with a whole line, end with a
line that lacks its end, or be garbled, with two lines run together or one that falls into
pieces at a line break in its texts. A contract or plan is plain (`IsPlain`) if no text that
it puts into a journal holds such a line break.

## What the code does not do

- A journal can outlive the truth. A process that stops between
  `apply_execution.py:677` and `:680`, or a failed append swallowed at `:691`, leaves a
  restored file journaled as completed; in the second case the run even reports that the
  group was rolled back safely. No resume continues from such a journal
  (`ApplyWitness.StaleJournalBlocksResume`). When a resume does complete is settled for
  all inputs by `ApplyTheorems.ResumeCompletesExactly`.
- A journal file that exists and is empty is a dead end in all three protocols: the first
  append creates the file exclusively (`apply_execution.py:424`), and if nothing reaches it,
  a fresh run refuses because the file exists (`:335-336`) and a resume because it is empty
  (`:373`). Torn and misnumbered lines are as final. `ApplyTheorems.FirstLineCanSpoil`,
  `QuarantineTheorems.FirstLineCanSpoil` and `RestoreTheorems.FirstLineCanSpoil` reach such
  journals from any cleared start, and the `UnusableJournalIsFinal` beside each shows that
  no later run changes anything.
- A line that was written although its append reported failure makes the journal unreadable
  as soon as the run writes another: both carry one number (`JournalFacts.OutOfStepIsFatal`,
  `ApplyWitness.UnacknowledgedLineIsFinal`, where the run reports a safe rollback).
- A group can be reported as rolled back safely with a file of it still at its destination.
  A resume takes a started member for a pending one if it cannot read the moved file, because
  `_fingerprint_matches` answers no to a failed read (`apply_execution.py:491-492`, `:799-811`);
  revalidation then fails, and the rollback does not know of the member
  (`ApplyWitness.MisjudgedMemberStays`). The same happens when an interrupt arrives between
  a rename and the statement that lists the member (`:837-838`;
  `ApplyWitness.LostRenameStays`). Nothing else does it: `ApplyTheorems.RunIsLawful`.
- Quarantine lists a loser for rollback only after the look that follows its rename
  (`quarantine_execution.py:1011-1020`). If that look fails or is interrupted, the loser stays
  in quarantine and the run records that no rollback failed
  (`QuarantineWitness.FailedLookStrandsLoser`). Nothing else does it:
  `QuarantineTheorems.FailedAttemptIsUndone`.
- Journal lines are JSON that leaves U+0085, U+2028 and U+2029 as they are
  (`apply_execution.py:421`, `quarantine_execution.py:495`, `:602`), the readers split lines at
  these characters too (`apply_execution.py:341`, `quarantine_execution.py:409`, `:536`), and
  preflight forbids only code points below 32 (`preflight.py:224`). The first line with such a
  path or group id makes the journal unreadable without any fault: a stopped apply can
  neither be resumed nor be started again (`ApplyWitness.LineBreakIsFinal`), and a quarantine
  that completes can never be restored (`RestoreTheorems.LineBreakCostsRestore`).
- A last line that lost only its end is read by the next run, which then writes onto it;
  from then on the journal cannot be read (`ApplyTheorems.CutLineIsFinal`,
  `QuarantineTheorems.CutLineIsFinal`). A quarantine can so be completed by a resume and yet
  never be restored (`RestoreTheorems.CutLineCostsRestore`).
- A loser that is already absent is journaled as completed (`quarantine_execution.py:965-972`),
  yet the final check (`:1074`) demands every loser in quarantine. Such a plan never
  completes, and restore, which asks for a completed journal, never starts
  (`QuarantineResume.AbsentLoserBlocks`).
- Preflight compares case-folded paths to decide what stays in place
  (`planner.py:1160-1165`, `:1193-1200`), apply compares exact paths or separate roots
  (`apply_contract.py:116-120`). A member in between moves without having been looked
  at, and may share its destination with another. Videos with one destination are mostly
  caught before, as duplicates (`planner.py:704-852`); their companions are not
  (`PreflightReadiness.CaseOnlyRenameIsOverlooked`). Apply then refuses or rolls back; no
  file is overwritten (`ApplyConservation.NoFileIsLost`).
- Quarantine derivation keeps winners apart from loser videos, but does not compare them
  with duplicate companions, nor the places of winners with those of moved files where roots
  are one directory or nested, which `quarantine_execution.py:177-192` allows unless the
  quarantine is the inner one (`DerivedPlan.WinnersApartExactly`,
  `DerivedPlan.RootsApartExactly`). With one root for source and library a run may take the
  winner's own organized file for the loser and move it away
  (`DerivedPlanWitness.SharedRootTakesWinner`); nested roots are open to the same
  (`DerivedPlanWitness.NestedRootTouchesWinner`, `DerivedPlanWitness.NestedRootTouchesSource`).
- The guard that withdraws matches at a disputed coordinate
  (`mixed_episode_assignment.py:698-755`) runs before the recovery of leading articles
  (`episode_assignment.py:40-142`), which can put a match there again
  (`EpisodeWitness.RecoveredBesideDispute`; when, exactly:
  `EpisodeOutcome.OnlyRecoveryUnsettles`).
- The contract compares paths by normalized, case-folded keys (`apply_contract.py:207-209`),
  the executor records them by keys that are only case-folded (`apply_execution.py:269-274`).
  The journal tells the members of a group apart exactly when no two moving ones have the same
  case-folded paths (`ContractDerivation.ContractIsWellFormed`), which the contract's own check
  ensures where case-folding identifies no two paths that normalizing first keeps apart
  (`ContractDerivation.RefiningKeysAreEnough`).
- Replay identifies members by the contract's path keys alone, the executor by group and its
  own keys.
  The journal of an undisturbed run is accepted only if no two members share both path keys
  (`JournalReplay.QuietRunReplays`).

## Model

| member | source | states |
|---|---|---|
| JournalDevice.Journal.Append | jellyfin_show_organizer/apply_execution.py:376-433 | Appending one journal line under any fault: the line is remembered only when it is known to be durable; a failed append may still leave the line, the line without its end, a torn fragment, or an empty file that did not exist before; a line break in the line's texts garbles the file |
| JournalDevice.Journal.Read | jellyfin_show_organizer/apply_execution.py:338-374 | The journal is read back exactly when it is not empty and every line is whole, on its own, in one piece and numbered 1, 2, 3, …; otherwise nothing is remembered |
| JournalDevice.Journal.RenameNoReplace | jellyfin_show_organizer/apply_execution.py:521-552 | A file is renamed exactly when the step takes effect, its origin exists and its target does not; the step may take effect and raise all the same; it moves that one file and touches nothing else |
| JournalDevice.Journal.Check | jellyfin_show_organizer/apply_execution.py:472-518 | A look at files goes well exactly when it does not fail and finds what it is to find; it changes nothing, and a failing look raises like one that finds something else |
| JournalDevice.Journal.EnsureDirectories | jellyfin_show_organizer/apply_execution.py:555-590 | Every missing directory above a new place is announced, made and recorded, one after the other, under any faults; existing ones write nothing |
| JournalFacts.ParentsAre | jellyfin_show_organizer/apply_execution.py:555-590 | The places above a place are what is left of its path before each slash |
| JournalFacts.DirectoriesExist | jellyfin_show_organizer/apply_execution.py:555-590 | Once they are ensured, exactly the directories asked for exist besides those that were there |
| JournalFacts.OutOfStepIsFatal | jellyfin_show_organizer/apply_execution.py:390-433 | After a line that reached the disk without the process knowing, whatever is written next makes the journal unreadable |
| MediaStore.RelocatePermutes | jellyfin_show_organizer/apply_execution.py:521-552 | Such a rename neither loses nor duplicates a file |
| ContractDerivation.CollectVideos | jellyfin_show_organizer/apply_contract.py:514-528 | Succeeds exactly when no video is suspicious, unresolved or of an unknown status and no movable source key repeats; the result gives each movable video's group by its source key |
| ContractDerivation.CompanionsFit | jellyfin_show_organizer/apply_contract.py:530-550 | Succeeds exactly when no companion is unresolved or of an unknown status and every associated one goes with a movable video of its own group |
| ContractDerivation.BuildGroup | jellyfin_show_organizer/apply_contract.py:128-145 | A group is constructed exactly when it has one video and its source keys and destination keys are distinct; its members are the given ones, in order |
| ContractDerivation.DeriveOperationGroups | jellyfin_show_organizer/apply_contract.py:503-573 | A contract is derived exactly when the plan is derivable; its groups are sorted by their distinct ids and hold, in order, exactly what the plan puts under each id, and no id with something to move is missing |
| ContractDerivation.GroupHoldsPlanned | jellyfin_show_organizer/apply_contract.py:503-573 | A member moves in a derived group exactly when the plan places it there and its two locations differ |
| ContractDerivation.DerivedMovesExactly | jellyfin_show_organizer/apply_contract.py:503-573 | In terms of the plan: a derived group moves exactly the matched and extra videos and associated companions listed under its id whose two locations differ, each with the fingerprint approved for it |
| ContractDerivation.ContractIsWellFormed | jellyfin_show_organizer/apply_contract.py:128-163 | Every derived contract has unique group ids, and its journal keys identify its moving members if and only if no two members that move in one group have the same journal keys |
| ContractDerivation.RefiningKeysAreEnough | jellyfin_show_organizer/apply_contract.py:128-145 | Where paths with one journal key have one contract key, the constructor's checks make the journal keys identify the members |
| ContractDerivation.DistinctPathsExactly | jellyfin_show_organizer/apply_contract.py:503-573 | Two moving members of the contract share a source or destination exactly when two planned members do: deriving neither makes nor hides a conflict |
| PreflightCollisions.CollisionFindings | jellyfin_show_organizer/preflight.py:354-396 | Each of the three collision codes is reported exactly when two matched records coincide in that way, and the findings are exactly the sets of all records that agree, in order |
| PreflightCollisions.NoFindingMeansDistinct | jellyfin_show_organizer/preflight.py:354-396 | None is reported exactly when the normalized, case-folded destinations of all matched records differ: the three kinds together miss nothing |
| PreflightReadiness.SourcesAreDistinct | jellyfin_show_organizer/preflight.py:503-512 | Under a ready preflight no two planned members share a source |
| PreflightReadiness.CheckedDestinationsAreDistinct | jellyfin_show_organizer/preflight.py:354-396 | Nor do two whose destinations preflight looked at share a destination |
| PreflightReadiness.ReadyMeansDistinctExactly | jellyfin_show_organizer/planner.py:1153-1215 | After a ready preflight the executor's assumption of distinct paths holds if and only if no moving member that preflight took to stay in place shares its destination with another |
| PreflightReadiness.AllCheckedReplays | jellyfin_show_organizer/preflight.py:354-396 | If preflight looked at every member that moves, a ready plan also has distinct contract keys, so that replay can tell its members apart |
| PreflightReadiness.CaseOnlyRenameIsOverlooked | jellyfin_show_organizer/planner.py:1153-1166 | Two extras with different destinations, one of them renamed only in case: the plan is derivable and ready, and its contract has one destination for the companions of both |
| ApplyContract.KeysIdentify | jellyfin_show_organizer/apply_execution.py:269-274 | Journal keys identify moving members across all groups, if those of each group differ |
| ApplyMachine.State | jellyfin_show_organizer/apply_execution.py:436-469 | Folding the entries gives the journal state: started, completed and rolled-back members, completed groups, completed run |
| ApplyInvariant.StateExactly | jellyfin_show_organizer/apply_execution.py:436-469 | A member is completed, or started, from its line on until a later line records its rollback; a group and the run are completed once a line says so |
| ApplyMachine.SortMembers | jellyfin_show_organizer/apply_execution.py:783-811 | A group's members are sorted into completed, recovered (with a new journal line) and pending, or the run stops at the first contradiction; a started member whose fingerprint cannot be read becomes pending |
| ApplyMachine.MoveMembers | jellyfin_show_organizer/apply_execution.py:818-852 | The guarded part of a group: revalidation, missing directories with their journal lines, a last look, write-ahead line, rename, check and completion line for each pending member, under any faults, those of the looks included |
| ApplyMachine.RollbackMember | jellyfin_show_organizer/apply_execution.py:657-700 | Rolling one member back, with both journal failures swallowed as in the code |
| ApplyApproval.ReportedUndoneExactly | jellyfin_show_organizer/apply_execution.py:657-700 | Rolling one member back is reported as done exactly when its approved file is at the destination alone, both looks and the rename go well, and the process survives both journal lines, whether they are written or not |
| ApplyMachine.RollbackMembers | jellyfin_show_organizer/apply_execution.py:649-701 | Rolling back the last member first and going on after failures |
| ApplyMachine.HandleFailure | jellyfin_show_organizer/apply_execution.py:853-882 | Rollback, failure line and the error that the run ends with |
| ApplyMachine.ExecuteApply | jellyfin_show_organizer/apply_execution.py:704-903 | The whole run on a volume ends with exactly the files, directories, journal and outcome of the function that the theorems are about, for every fault schedule; a fresh run refuses any existing journal file, a resume an empty or unreadable one. What that means for files that were not approved: the rows of ApplyApproval |
| ApplySafety.SortKeeps | jellyfin_show_organizer/apply_execution.py:783-811 | Sorting keeps the frontier invariant, moves nothing, loses no member, and what it calls completed is at its destination |
| ApplySafety.MoveAllKeeps | jellyfin_show_organizer/apply_execution.py:818-852 | Moving keeps the frontier invariant, whatever step fails or is the last; what the rollback list names is at its destination, and a moved member that it does not name was there before or had its rename unacknowledged, exactly |
| ApplySafety.UndoAllKeeps | jellyfin_show_organizer/apply_execution.py:649-701 | Rollback keeps the frontier invariant; every member of the list is back at its source or among the failures, and every other member is where it was |
| ApplySafety.RunGroupsKeep | jellyfin_show_organizer/apply_execution.py:776-897 | After any stretch of a run the frontier invariant holds: groups before the frontier are complete, groups behind it untouched; a completed run has no group left, and a safe rollback leaves the frontier group at its sources exactly when its attempt left no stray |
| ApplyConservation.NoFileIsLost | jellyfin_show_organizer/apply_execution.py:704-897 | For any contract whatever and any faults, a run only permutes files and only appends to the journal |
| ApplyConservation.NoFileIsEverLost | jellyfin_show_organizer/apply_execution.py:704-897 | The same over any sequence of fresh and resumed runs |
| ApplyTheorems.RunIsLawful | jellyfin_show_organizer/apply_execution.py:783-882 | Every run leaves a reachable disk, and a group reported as rolled back safely has all its members' own files at their sources if and only if no started member at its destination was judged pending and no rename took effect unacknowledged in the failing attempt |
| ApplyTheorems.CampaignIsSafe | jellyfin_show_organizer/apply_execution.py:704-897 | In every state reachable by fresh and resumed runs each member's own file is at exactly one of its two places, moved files have the approved size, time and hash and are announced in the journal, nothing else changed, and at most one group has members on both sides |
| ApplyTheorems.DisagreementFailsClosed | jellyfin_show_organizer/apply_execution.py:776-811 | If the journal vouches for a member that is not at its destination, a resume moves no file of any group and ends with an error, under any further faults |
| ApplyTheorems.ResumeCompletesExactly | jellyfin_show_organizer/apply_execution.py:754-897 | A fault-free resume completes if and only if the journal is readable and agrees with the disk; then every moving member is at its destination and vouched-for, recovered and moved members add up to all of them |
| ApplyTheorems.QuietRunCompletesExactly | jellyfin_show_organizer/apply_execution.py:754-897 | The next fault-free run, fresh or resumed, completes if and only if there is no empty journal file, the journal is readable and agrees with the disk, and a fresh start finds every member at its source |
| ApplyApproval.FreshRunStartsExactly | jellyfin_show_organizer/apply_execution.py:754-775 | For any contract: an undisturbed fresh run writes its first line if and only if there is no journal and at every moving member's source is a file with the approved size, time and hash and nothing at its destination; where that fails, a fresh run is declined under any faults and changes neither files nor journal |
| ApplyApproval.FreshRunCompletesExactly | jellyfin_show_organizer/apply_execution.py:754-897 | For a sound contract the undisturbed first run completes if and only if the same holds of the files, and then each of these files is at its destination |
| ApplyApproval.OnlyApprovedFilesMove | jellyfin_show_organizer/apply_execution.py:472-518 | For any contract, over any runs under any faults: where the files at a place differ, what was there and what is there now has the size, time and hash approved for a moving member with this place |
| ApplyApproval.CompletedRunIsWhole | jellyfin_show_organizer/apply_execution.py:883-903 | For any contract a run that reports completion leaves a file with the approved attributes at every destination and nothing at the sources |
| ApplyApproval.CompletedRunIsRecorded | jellyfin_show_organizer/apply_execution.py:883-903 | Every completed run has recorded in its journal that it is complete |
| ApplyApproval.MovedIsReachable | jellyfin_show_organizer/apply_execution.py:818-852 | What a group moves is below directories that exist |
| ApplyApproval.CountsAreExact | jellyfin_show_organizer/apply_execution.py:783-903 | A completed run counts as moved exactly the members it announced, and as recovered exactly the others it recorded as in place |
| ApplyTheorems.SafeRollbackAgreesExactly | jellyfin_show_organizer/apply_execution.py:657-701 | A safe rollback without strays, whose process knew of every line, leaves journal and disk in agreement if and only if the journal vouches for no member of the group |
| ApplyTheorems.StoppedRunsResume | jellyfin_show_organizer/apply_execution.py:754-897 | Stopped or failing at any step, any number of times, outside rollbacks or with rollbacks that ended and were recorded, and without a torn or cut line elsewhere, the work is finished by one fault-free run if and only if the journal has lines and none holds a line break, or there is no journal file and every member is at its source; a plain contract never puts a line break there |
| ApplyTheorems.SingleFailureRecovers | jellyfin_show_organizer/apply_execution.py:818-882 | After one failing step anywhere, a look included, the resumed run completes, refuses or rolls back safely, and the next fault-free resume completes if and only if no journal line holds a line break |
| ApplyTheorems.UnusableJournalIsFinal | jellyfin_show_organizer/apply_execution.py:327-374 | From an existing empty journal, or an unreadable one, every run ends with an error and no sequence of runs changes anything |
| ApplyTheorems.FirstLineCanSpoil | jellyfin_show_organizer/apply_execution.py:424-433 | From any cleared start the first append can leave such a journal |
| ApplyTheorems.CutLineIsFinal | jellyfin_show_organizer/apply_execution.py:338-433 | What a run writes after a line that lost its end makes the journal unusable for good |
| ApplyWitness.StaleJournal | jellyfin_show_organizer/apply_execution.py:677-694 | A stop after restoring a file, or a swallowed failure to record it (where the run still reports a safe rollback), leaves the journal saying that the file is completed |
| ApplyWitness.StaleJournalBlocksResume | jellyfin_show_organizer/apply_execution.py:783-791 | From such a journal no resume ever moves a file or completes |
| ApplyWitness.UnacknowledgedLineIsFinal | jellyfin_show_organizer/apply_execution.py:665-694 | A concrete run reports a safe rollback and leaves two lines with one number, after which no run completes |
| ApplyWitness.LostRenameStays | jellyfin_show_organizer/apply_execution.py:837-882 | A concrete run whose rename took effect and raised reports a safe rollback with the file at its destination |
| ApplyWitness.MisjudgedMemberStays | jellyfin_show_organizer/apply_execution.py:792-882 | A run stopped after a rename is resumed, cannot read the moved file, and reports a safe rollback with the file at its destination |
| ApplyWitness.LineBreakIsFinal | jellyfin_show_organizer/apply_execution.py:338-433 | A path with a line separator: the run is stopped with the file moved, and no later run completes or undoes the move |
| JournalReplay.ReplayJournal | jellyfin_show_organizer/apply_contract.py:622-717 | Replay returns the completed groups, the incomplete ones and the completed members, or the first reason to reject |
| JournalReplay.ReplayStays | jellyfin_show_organizer/apply_contract.py:622-717 | Acceptance is prefix-closed, and a rejection is final with the same reason |
| JournalReplay.AcceptedCounts | jellyfin_show_organizer/apply_contract.py:672-708 | In an accepted journal every path is recorded once or never, as the completed members say, and completed groups have all their members recorded |
| JournalReplay.AcceptedState | jellyfin_show_organizer/apply_contract.py:622-717 | In an accepted journal a group is under way if it was started last, completed if it was ever finished, touched if it is mentioned; so a group that failed is open again |
| JournalReplay.NextIsAcceptedExactly | jellyfin_show_organizer/apply_contract.py:640-708 | Exactly which entry an accepted journal may go on with: a start unless the group is under way, a member of the group not yet recorded, a failure or a finish of a group under way, a finish only with all members recorded, and nothing after that |
| JournalReplay.CompletedGroupsAreWhole | jellyfin_show_organizer/apply_contract.py:694-708 | A group reported completed has each moving member recorded exactly once |
| JournalReplay.QuietRunReplays | jellyfin_show_organizer/apply_execution.py:813-851 | A fault-free first run completes, and its journal is accepted if and only if no two moving members share both of the contract's path keys; replay then reports every group completed and none incomplete |
| QuarantineDerivation.DuplicateStrings | jellyfin_show_organizer/quarantine_contract.py:192-229 | A reviewed decision is accepted exactly when its keys are distinct, the winner is a candidate, and the losers are exactly the other candidates |
| QuarantineDerivation.CountsDecide | jellyfin_show_organizer/quarantine_contract.py:376-382 | The two companion counts are equal if and only if every duplicate companion belongs to a duplicate video, and then none is left out |
| QuarantineDerivation.WinnerAgrees | jellyfin_show_organizer/quarantine_contract.py:317-333 | A winner record is accepted exactly when it is approved and names the same winner, losers and destination |
| QuarantineDerivation.GroupOf | jellyfin_show_organizer/quarantine_contract.py:296-374 | A group is formed exactly from an approved loser whose member paths are distinct |
| QuarantineDerivation.DeriveQuarantinePlan | jellyfin_show_organizer/quarantine_contract.py:232-405 | A plan is derived exactly from acceptable reviews; with multiplicity its members are exactly the duplicate videos and the duplicate companions, its ids are distinct and its groups are ordered |
| QuarantineDerivation.VideosAreCovered | jellyfin_show_organizer/quarantine_contract.py:296-374 | Each duplicate video is the video of exactly one group |
| QuarantineDerivation.CompanionsAreCovered | jellyfin_show_organizer/quarantine_contract.py:339-388 | Each duplicate companion is in exactly one group |
| QuarantineDerivation.MembersAreDistinct | jellyfin_show_organizer/quarantine_contract.py:399-405 | Member paths are pairwise distinct within and across groups |
| QuarantineDerivation.WinnersAreNoLosers | jellyfin_show_organizer/quarantine_contract.py:309-316 | No winner is a loser video of any group |
| DerivedPlan.DerivedPlanIsWellFormed | jellyfin_show_organizer/quarantine_contract.py:77-131 | Every derived plan has unique group ids and no member path twice, as quarantine, restore and their theorems assume, for any roots that are allowed |
| DerivedPlan.RootsApartExactly | jellyfin_show_organizer/quarantine_execution.py:177-192 | Nothing is moved to where something is moved from if and only if no duplicate's absolute place in quarantine is another's source; that holds wherever the source does not lie inside the quarantine |
| DerivedPlan.WinnersApartExactly | jellyfin_show_organizer/quarantine_contract.py:309-405 | Winners are apart from everything that is moved if and only if no duplicate companion has the very path of a winner and no absolute place of a winner is one that something is moved from or to, for roots nested in any allowed way |
| DerivedPlan.RootsDecide | jellyfin_show_organizer/quarantine_execution.py:177-192 | With roots side by side only a companion under a winner's path can touch a winner; with one root for source and library also whatever has a winner's organized path |
| DerivedPlan.DerivedKeysKeepBreaks | jellyfin_show_organizer/quarantine_execution.py:465-508 | In a derived plan a quarantine path has a line break only where its journal key has one, if folding keeps line breaks |
| DerivedPlanWitness.StrayCompanionTakesWinner | jellyfin_show_organizer/quarantine_contract.py:339-388 | A review that derivation accepts, with a duplicate companion under the winner's path |
| DerivedPlanWitness.SharedRootTakesWinner | jellyfin_show_organizer/quarantine_execution.py:177-250 | With one directory for source and library an accepted, well-formed plan starts a run that moves the winner's organized file away and only then refuses |
| DerivedPlanWitness.NestedRootTouchesWinner | jellyfin_show_organizer/quarantine_execution.py:177-250 | With the source inside the library an accepted review has a winner's approved place among the places to be moved from |
| DerivedPlanWitness.NestedRootTouchesSource | jellyfin_show_organizer/quarantine_execution.py:177-192 | With the source inside the quarantine an accepted review moves one duplicate to the place of another |
| QuarantineMachine.State | jellyfin_show_organizer/quarantine_execution.py:621-654 | Folding the journal of quarantine or restore: a completion replaces the start, a rollback removes both |
| QuarantineModel.StateExactly | jellyfin_show_organizer/quarantine_execution.py:621-654 | A member is completed from its line on until a later line records its rollback, and started until either; a group and the run are completed once a line says so |
| QuarantineMachine.SortMembers | jellyfin_show_organizer/quarantine_execution.py:943-978 | Members are sorted by journal and disk; already absent ones are journaled completed, contradictions stop the run |
| QuarantineMachine.MoveMembers | jellyfin_show_organizer/quarantine_execution.py:985-1031 | The guarded part of a quarantine group, directories and their journal lines included, under any faults; a loser counts as moved only after the look that follows its rename, which may fail |
| QuarantineMachine.RollbackMembers | jellyfin_show_organizer/quarantine_execution.py:734-774 | Rollback of what this attempt moved, the last first, going on after failures |
| QuarantineApproval.ReportedUndoneExactly | jellyfin_show_organizer/quarantine_execution.py:734-774 | Putting one loser back is reported as done exactly when its approved file is in quarantine alone and all five steps go well |
| QuarantineMachine.ExecuteQuarantine | jellyfin_show_organizer/quarantine_execution.py:864-1096 | The whole quarantine run ends with exactly the files, directories, journal and outcome of its function; existing, empty and unreadable journals are refused as in the code. What that means for winners and for files that were not approved: the rows of QuarantineApproval |
| RestoreMachine.RestoreMember | jellyfin_show_organizer/quarantine_execution.py:1271-1307 | Restoring one member under any faults |
| RestoreMachine.ExecuteRestore | jellyfin_show_organizer/quarantine_execution.py:1156-1352 | The whole restore run ends with exactly the files, journal and outcome of its function; groups and members go in reverse; existing, empty and unreadable journals are refused as in the code |
| QuarantineInvariant.WinnersStay | jellyfin_show_organizer/quarantine_execution.py:214-250 | Wherever the invariant holds, the file at every winner's organized place is the one that was there at the start, has the approved size, time and hash, and nothing is at the winner's source unless the two places are one |
| QuarantineSafety.RunGroupsKeep | jellyfin_show_organizer/quarantine_execution.py:923-1078 | The quarantine invariant is kept over all groups, whatever fails |
| QuarantineSafety.RunGroupKeeps | jellyfin_show_organizer/quarantine_execution.py:938-1067 | The attempt on one group keeps the invariant and leaves the files and journal state of all other groups alone |
| QuarantineTheorems.CampaignIsSafe | jellyfin_show_organizer/quarantine_execution.py:840-861 | In every reachable state each loser's own file is home, in quarantine or was never there; quarantined files have the approved attributes and are announced; nothing else changed; every winner's approved file is still the one at its organized place and nowhere else; and a journaled completion means that every loser is in quarantine |
| QuarantineApproval.FreshRunStartsExactly | jellyfin_show_organizer/quarantine_execution.py:840-861 | For any plan: an undisturbed fresh run writes its first line if and only if there is no journal, every winner's approved file is at its organized place and not at its source, and every loser's approved file is at home, or nothing at either of its places; where that fails, a fresh run is declined under any faults and changes neither files nor journal |
| QuarantineApproval.ResumeNeedsWinners | jellyfin_show_organizer/quarantine_execution.py:923-940 | For any plan a resume stops, with nothing changed, before the first group that is not recorded as complete and whose winner does not stand organized |
| QuarantineApproval.OnlyApprovedFilesMove | jellyfin_show_organizer/quarantine_execution.py:253-284 | For any plan, over any runs under any faults: where the files at a place differ, what was there and what is there now has the attributes approved for a loser with this place |
| QuarantineApproval.CompletedRunIsWhole | jellyfin_show_organizer/quarantine_execution.py:803-837 | For any plan a run that reports completion finds every winner organized and every loser's approved file in quarantine; only the resume of a completed run lets a loser be at neither place |
| QuarantineApproval.MovedIsReachable | jellyfin_show_organizer/quarantine_execution.py:657-691 | What a group moves is below directories that exist |
| QuarantineCounts.CountsAreExact | jellyfin_show_organizer/quarantine_execution.py:943-1096 | A completed run counts as moved exactly the losers it announced, and as recovered exactly the others it recorded as in quarantine |
| QuarantineConservation.NoFileIsEverLost | jellyfin_show_organizer/quarantine_execution.py:864-1096 | For any plan whatever, over any fresh and resumed runs, files are only permuted and the journal only grows |
| QuarantineTheorems.UnusableJournalIsFinal | jellyfin_show_organizer/quarantine_execution.py:386-451 | From an existing empty quarantine journal, or an unreadable one, every run ends with an error and nothing changes |
| QuarantineTheorems.FirstLineCanSpoil | jellyfin_show_organizer/quarantine_execution.py:498-508 | From any valid start the first append can leave such a journal |
| QuarantineTheorems.FailedAttemptIsUndone | jellyfin_show_organizer/quarantine_execution.py:985-1067 | For any plan, a group attempt that fails and reports no rollback failure leaves the files exactly as it found them if and only if every rename that took effect was acknowledged and the look that followed it did not fail |
| QuarantineWitness.FailedLookStrandsLoser | jellyfin_show_organizer/quarantine_execution.py:1011-1067 | A concrete run of a sound plan reports a complete rollback with the loser in quarantine |
| QuarantineResume.CompletedRunsAreWhole | jellyfin_show_organizer/quarantine_execution.py:1068-1078 | A run that reports completion has every loser's approved file in quarantine with nothing at home, and every winner's approved file organized, whatever faults it met |
| QuarantineResume.ResumeCompletesExactly | jellyfin_show_organizer/quarantine_execution.py:901-1096 | A fault-free resume completes if and only if the journal is readable, no loser called completed is back home, and no loser is absent |
| QuarantineRecovery.QuietRunCompletesExactly | jellyfin_show_organizer/quarantine_execution.py:901-1096 | The same of the next fault-free run, fresh or resumed, with the conditions of a fresh start and no empty journal file |
| QuarantineRecovery.StoppedRunsResume | jellyfin_show_organizer/quarantine_execution.py:901-1096 | Stopped or failing at any step, any number of times, outside rollbacks or with rollbacks that took everything back, and without a torn or cut line elsewhere, quarantine is finished by one fault-free run if and only if no loser was absent and the journal has lines without line breaks, or there is no journal file and a fresh start is possible; a plain plan never puts a line break there |
| QuarantineResume.AbsentLoserBlocks | jellyfin_show_organizer/quarantine_execution.py:965-972 | A loser already absent at the start keeps every run, fresh or resumed, from ever completing |
| QuarantineJournal.CompletedRunIsRestorable | jellyfin_show_organizer/quarantine_execution.py:1099-1123 | A completed quarantine run, after any earlier failures and stops, leaves a journal that restore accepts if and only if it is not garbled; if no line lost its end, exactly when the plan's ids and paths hold no line break (given keys that keep line breaks, as those of derived plans do) |
| RestoreTheorems.RunGroupsKeep | jellyfin_show_organizer/quarantine_execution.py:1226-1336 | Restore keeps its invariant whatever fails, completes when nothing fails, and a completed restore has every loser at home |
| QuarantineApproval.FreshRestoreStartsExactly | jellyfin_show_organizer/quarantine_execution.py:1142-1217 | For any plan: an undisturbed fresh restore starts if and only if the approved journal records a completed quarantine, there is no restore journal, and every loser's approved file is in quarantine with nothing at home; otherwise nothing changes |
| QuarantineApproval.OnlyApprovedFilesReturn | jellyfin_show_organizer/quarantine_execution.py:287-293 | Nor does any restore run move a file without the approved attributes |
| QuarantineApproval.CompletedRestoreIsWhole | jellyfin_show_organizer/quarantine_execution.py:1318-1352 | For any plan a restore that reports completion leaves every loser's approved file at home with nothing in quarantine, or nothing at either place |
| QuarantineApproval.CompletedRestoreIsRecorded | jellyfin_show_organizer/quarantine_execution.py:1334-1352 | Every completed restore has recorded in its journal that it is complete |
| QuarantineApproval.FailedRestoreIsRecorded | jellyfin_show_organizer/quarantine_execution.py:1308-1333 | A group that cannot be restored is recorded as failed, if the line can be written |
| QuarantineCounts.RestoreCountsAreExact | jellyfin_show_organizer/quarantine_execution.py:1226-1352 | The counts of a completed restore are those of the members it announced and of the others it recorded |
| RestoreConservation.NoFileIsEverLost | jellyfin_show_organizer/quarantine_execution.py:1156-1352 | For any plan and any approved journal, over any restore runs, files are only permuted and the journal only grows |
| RestoreTheorems.RestoreUndoesQuarantine | jellyfin_show_organizer/quarantine_execution.py:1156-1352 | After any restore runs, stopped or failing anywhere, one fault-free run completes if and only if the restore journal is readable and not an existing empty file, and the files are then exactly those before the quarantine |
| RestoreTheorems.QuarantineThenRestoreIsIdentity | jellyfin_show_organizer/quarantine_execution.py:1156-1352 | Quarantine followed by restore is the identity on files, through stops and failures of either, if the quarantine journal is not garbled and failed appends of restore leave nothing behind |
| RestoreTheorems.CutLineCostsRestore | jellyfin_show_organizer/quarantine_execution.py:454-508 | From any valid start, a first line that lost its end lets the resumed quarantine complete and keeps restore from ever starting |
| RestoreTheorems.LineBreakCostsRestore | jellyfin_show_organizer/quarantine_execution.py:454-573 | From any valid start, a line break in a group id or a loser's path lets the undisturbed quarantine complete and keeps restore from ever starting |
| RestoreTheorems.UnusableJournalIsFinal | jellyfin_show_organizer/quarantine_execution.py:515-573 | From an existing empty restore journal, or an unreadable one, every restore run ends with an error and nothing changes |
| RestoreTheorems.FirstLineCanSpoil | jellyfin_show_organizer/quarantine_execution.py:605-615 | The first append of any restore can leave such a journal |
| Destination.EscapeComponent | jellyfin_show_organizer/destination.py:142-164 | The escaping loop computes the escaped component |
| Destination.DecodeComponent | jellyfin_show_organizer/destination.py:189-213 | The decoding loop computes the decoded component |
| Destination.EscapeRoundTrip | jellyfin_show_organizer/destination.py:142-213 | Decoding an escaped non-empty component gives it back, literal tildes and reserved names included |
| Destination.EscapeInjective | jellyfin_show_organizer/destination.py:142-164 | Escaping is injective; the image of the empty component is no other component's |
| FittedPath.EscapesOnlyWhatItMust | jellyfin_show_organizer/destination.py:142-164 | A component is left as it is if and only if it is safe and has no tilde |
| FittedPath.HexExactly | jellyfin_show_organizer/destination.py:189-213 | The digits that decoding reads are the sixteen of either case, each with its value |
| Destination.TruncateLength | jellyfin_show_organizer/destination.py:167-173 | Truncation to a limit above the suffix length succeeds and yields the limit exactly, or the component itself when it is short enough |
| Destination.TruncateExactly | jellyfin_show_organizer/destination.py:167-173 | Truncation fails exactly when the component is too long and the limit leaves no room beside mark and digest |
| Destination.FitRelativePath | jellyfin_show_organizer/destination.py:260-314 | The fitting procedure with its reassigned parts computes the specified path, reasons or error; what that path is: FittedPath.FittedFrom |
| FittingTheorems.FittingIsExact | jellyfin_show_organizer/destination.py:260-314 | A path is returned exactly when min(32, series) + middle + min(32, stem) + extension + 2 is within the limit; it respects the limit; the truncation error never occurs |
| FittedPath.FittedFrom | jellyfin_show_organizer/destination.py:260-314 | Split at its slashes a fitted path has exactly three parts: series, middle, and stem with extension; each is the escaped text, or the beginning of it with a mark and the digest of that very text, cut again for the path limit the stem first and then the series, each to a length that is stated; every reason is given exactly when what it means holds, once |
| FittedPath.UncutDecodes | jellyfin_show_organizer/destination.py:189-314 | Where nothing needs to be cut, decoding the three parts gives back series, middle and stem |
| FittedPath.LegalExactly | jellyfin_show_organizer/destination.py:53-62 | The legal policies and extensions: a path limit from 80, a component limit from 32 to 255, one to twelve small letters or digits after a dot |
| FittingTheorems.SeasonAlwaysFits | jellyfin_show_organizer/destination.py:53-62 | A season folder and a three-letter extension fit under every legal policy |
| FittingTheorems.EscapeIsSafe | jellyfin_show_organizer/destination.py:142-164 | An escaped component has no forbidden or control character, no trailing dot or space, and is not reserved |
| FittingTheorems.TruncateIsSafe | jellyfin_show_organizer/destination.py:167-173 | Truncation keeps a component safe, however often it is repeated |
| FittingTheorems.FittedIsSafe | jellyfin_show_organizer/destination.py:260-314 | What fitting returns consists of three safe components within their limits |
| FittingTheorems.FittedPassesPreflight | jellyfin_show_organizer/preflight.py:189-232 | Whatever fitting returns earns no finding code of the validator under the same limits, normal form aside |
| Preflight.RelativePathCodes | jellyfin_show_organizer/preflight.py:189-232 | The validator reports exactly the codes that a path deserves, each once; what they mean in the characters of the path: PathRules.CodesMean |
| PathRules.SplitUnique | jellyfin_show_organizer/preflight.py:204 | Splitting is the inverse of joining parts without slashes |
| PathRules.NamesDeviceExactly | jellyfin_show_organizer/preflight.py:228-230 | A name counts as reserved if and only if it is con, prn, aux, nul, com1 to com9 or lpt1 to lpt9 in any case, then spaces, then the end or a dot and anything |
| PathRules.CodesMean | jellyfin_show_organizer/preflight.py:189-232 | Each code but normal form is reported if and only if what it says holds of the characters and parts of the path |
| PathRules.CodelessExactly | jellyfin_show_organizer/preflight.py:189-232 | A path earns no code but normal form if and only if it is within the path limit and each part is a non-empty name within the component limit, free of special and control characters, not ending in a space or dot, and no device name |
| EpisodeClaims.ProtectEpisodeIdentity | jellyfin_show_organizer/episode_assignment_strict.py:1086-1137 | A claim is withdrawn exactly when one of its episodes is claimed by another source |
| EpisodeClaims.ProtectedIsExclusive | jellyfin_show_organizer/episode_assignment_strict.py:1086-1137 | Afterwards no provider episode is claimed by two sources |
| EpisodeClaims.ExclusiveIsKept | jellyfin_show_organizer/episode_assignment_strict.py:1119-1121 | Exclusive claims pass unchanged, so the guard is idempotent |
| EpisodeClaims.ProtectSegmentIdentity | jellyfin_show_organizer/episode_assignment_strict.py:1140-1185 | A claim is withdrawn exactly when one of its episodes is claimed under different segment names |
| EpisodeClaims.SegmentsProtectedAreApart | jellyfin_show_organizer/episode_assignment_strict.py:1140-1185 | Afterwards sources that name different segments share no episode |
| EpisodeClaims.GroupStatus | jellyfin_show_organizer/episode_assignment_strict.py:1077-1083 | A group is matched when all its assignments are, suspicious when one is, and otherwise unresolved |
| EpisodePipeline.StrictGroup | jellyfin_show_organizer/episode_assignment_strict.py:1199-1401 | For any matchers: a group is assigned exactly when it is non-empty and no source repeats; each source then gets what its matcher says, or the whole group one refusal, under the guard of the mode; one assignment per source, the right status, exclusivity by mode, every match the source's own |
| EpisodeRules.RefusedExactly | jellyfin_show_organizer/episode_assignment_strict.py:1199-1370 | The whole group is refused exactly when provider, a source or the catalog does not belong to it or some source is of a family that is neither the expected one nor that of specials beside it; it is left open exactly when otherwise the catalog cannot be used |
| EpisodeRules.AnswerExactly | jellyfin_show_organizer/episode_assignment_strict.py:1340-1391 | Otherwise each source has its matcher's answer, as an accessory exactly if it is a special beside aired or absolute numbers |
| EpisodePipeline.ByFamily | jellyfin_show_organizer/mixed_episode_assignment.py:569-606 | Partitioned by numbering family, each source has the claim that the strict pass over its family alone gives it, under the mode of the family; a repeated source is refused; the catalog is asked if a family asks it |
| EpisodePipeline.CoreGroup | jellyfin_show_organizer/mixed_episode_assignment.py:534-615 | The core is the strict pass over the whole group or, exactly when the group is mixed in a way that can be partitioned, the guard over the claims by family; the guarantees hold of both |
| EpisodeRules.PartitionedExactly | jellyfin_show_organizer/mixed_episode_assignment.py:534-569 | The group is partitioned exactly when its primary numbering can be, some source has it, and some source has another one and is no special |
| EpisodeRecovery.CompoundTitles | jellyfin_show_organizer/mixed_episode_assignment.py:806-885 | The remap replaces all its candidates or nothing; candidates come from doubtful claims, their episodes are claimed once and by no other source, and fewer than three candidates are accepted only among titles that join their parts with a dash or an "and" |
| EpisodeTitles.ChosenExactly | jellyfin_show_organizer/mixed_episode_assignment.py:757-885 | A doubt is resolved by its title exactly when the title names two or more episodes against the coordinate, joins them or is one of three such titles, and all these titles together name no episode twice and none that another source claims |
| EpisodeRecovery.CompoundsStayExclusive | jellyfin_show_organizer/mixed_episode_assignment.py:806-885 | The remap makes no conflict: exclusive claims stay exclusive |
| EpisodeRecovery.ProtectPeers | jellyfin_show_organizer/mixed_episode_assignment.py:698-755 | A match is withdrawn exactly when a doubtful claim disputes its coordinate |
| EpisodeRecovery.NoMatchAtDisputed | jellyfin_show_organizer/mixed_episode_assignment.py:698-755 | Afterwards no match is left at a disputed coordinate, and exclusivity is kept |
| EpisodeRecovery.AccessoryClaim | jellyfin_show_organizer/mixed_episode_assignment.py:895-917 | Only a withdrawn repetition of another family is matched again, to exactly what the strict pass says of that source alone under its family's mode |
| EpisodeRecovery.SegmentTitles | jellyfin_show_organizer/mixed_episode_assignment.py:920-1074 | The remap by segment titles acts only in aired mode when triggered; then, source by source, explicit and quarantined claims stay, the aired family gets its segment-title claim, and the others are recovered or kept. One assignment per source, each its own |
| EpisodeRecovery.Fixed | jellyfin_show_organizer/mixed_episode_assignment.py:1142-1165 | The claims fixed before the rerun are exactly the quarantined titles, left open, and the guarded premieres of the other sources |
| EpisodeRules.FixedExactly | jellyfin_show_organizer/mixed_episode_assignment.py:1142-1165 | A claim is guarded exactly for a source around a premiere that is found, with aired or absolute numbers and no explicit decision; quarantined exactly for a titled source with one coordinate whose claim was withdrawn there, if the matcher says so |
| EpisodeRecovery.Rerun | jellyfin_show_organizer/mixed_episode_assignment.py:1166-1184 | The fixed claims stay, and every other source has what the core assigns to the remaining sources without them |
| EpisodeRecovery.Specials | jellyfin_show_organizer/mixed_episode_assignment.py:1190-1198 | The special fallback replaces exactly the claims of the sources that want it, and only if their special is still missing |
| EpisodeAssignment.MixedGroup | jellyfin_show_organizer/mixed_episode_assignment.py:1077-1222 | The mixed assignment is the core, or exactly where a pass applies the composition of fixed claims, rerun, special fallback, segment titles, compound titles, peers and guard; of what the sources then claim, a match is withdrawn exactly when it is in dispute or contested and a doubt resolved exactly when its title is believed; with matches that carry no note of a conflict, none shares its coordinate with a source left in doubt over one; the guarantees hold throughout |
| EpisodeRules.PassesApplyExactly | jellyfin_show_organizer/mixed_episode_assignment.py:1077-1141 | The passes apply exactly where the core asked the usable catalog of the same provider and some source misses a hinted special, surrounds a premiere, or has a title and a withdrawn claim at its coordinate, or three aired sources count titles by segments |
| EpisodeOutcome.SiftingIsExact | jellyfin_show_organizer/mixed_episode_assignment.py:1209-1215 | What the last three passes do, source by source: a match is withdrawn exactly when a source at its coordinate is in doubt over a conflict and its title is not believed, or another match that is not in this position has one of its episodes; open claims stay; a doubt is resolved exactly when its title is believed and the source is not in that position itself |
| EpisodeOutcome.CoreIsSifted | jellyfin_show_organizer/mixed_episode_assignment.py:1077-1222 | Where no claim is fixed, no special wanted and no title counted by segments, that is what becomes of the core's own assignment: it says which matches of the core survive |
| EpisodeOutcome.QuarantinedStayOpen | jellyfin_show_organizer/mixed_episode_assignment.py:634-695 | A quarantined title is left open in the end |
| EpisodeOutcome.PremieresAreGuarded | jellyfin_show_organizer/mixed_episode_assignment.py:1142-1165 | A guarded premiere comes to the last guards as the match found for it |
| EpisodeOutcome.SpecialsAreFound | jellyfin_show_organizer/mixed_episode_assignment.py:1190-1198 | Where nothing is fixed a wanted special comes to the last guards as what the special matcher found |
| EpisodeOutcome.OthersAreRerun | jellyfin_show_organizer/mixed_episode_assignment.py:1166-1188 | Where some claims are fixed the other sources come to the last guards with what the core assigns to them alone |
| EpisodeOutcome.ShownTitlesAreMatched | jellyfin_show_organizer/mixed_episode_assignment.py:920-1074 | Where titles are counted by segments, a source of the aired family comes to the last guards with the episode that its title was shown to name, and is left open or in doubt where none was |
| EpisodeOutcome.AccessoryIsAskedAgain | jellyfin_show_organizer/mixed_episode_assignment.py:895-917 | A withdrawn repetition of another family gets what its own matcher says in that family's mode |
| EpisodeAssignment.RecoverArticles | jellyfin_show_organizer/episode_assignment.py:40-142 | The recovery of an optional leading article changes nothing when no claim is recovered, and otherwise gives the recovered claims under the guard of the mode; the guarantees survive it |
| EpisodeOutcome.RecoveryIsExact | jellyfin_show_organizer/episode_assignment.py:40-142 | Source by source: a segment left open for want of its title is matched exactly when one episode differs by an article and no other source would claim it; a match is withdrawn exactly when it collides with another; everything else stays |
| EpisodeOutcome.OnlyRecoveryUnsettles | jellyfin_show_organizer/episode_assignment.py:40-142 | After it a match stands beside a dispute only if it was just recovered, or the doubt came from several candidates or from a collision |
| EpisodeWitness.RecoveredBesideDispute | jellyfin_show_organizer/episode_assignment.py:40-142 | That does happen: a concrete group whose recovered segment is matched at the coordinate that an aired source disputes |
| EpisodeAssignment.AssignEpisodeGroup | jellyfin_show_organizer/episode_assignment.py:195-210 | The whole pipeline, for any matchers: assigned exactly when non-empty without repeated sources; the assignments are the mixed ones with, source by source, exactly the matches added that differ by an article only, and exactly the matches withdrawn that collide with others; one assignment per source; status of the group right; no episode with two sources outside segment-title mode; none shared between differently named segments; every match found for that very source |
| EpisodeAssignment.ExchangedMatchesAreNotOwn | jellyfin_show_organizer/episode_assignment.py:195-210 | Ownership of matches means something: with matchers that answer for each source alone, exchanged episodes are nobody's own |
| DuplicateClaims.ComponentOf | jellyfin_show_organizer/planner.py:338-351 | The worklist gathers a set of sources that are connected to each other and share no claim with the rest |
| DuplicateClaims.DuplicateClaimComponents | jellyfin_show_organizer/planner.py:329-355 | The result is a partition of the sources into connected parts that share no claim, in key order; the worklist terminates |
| DuplicateClaims.SameComponentIffConnected | jellyfin_show_organizer/planner.py:329-355 | Two sources are in one component if and only if a chain of shared claims joins them |
| DuplicateClaims.IsPromotable | jellyfin_show_organizer/planner.py:383-405 | A component is promoted exactly when every member matches completely and all match the same episodes |
| DuplicateClaims.RecoverDuplicates | jellyfin_show_organizer/planner.py:358-442 | A source is recovered, with its own episodes, if and only if another source is connected to it and all connected sources match completely and alike |
| DuplicateClaims.RecoveredExactly | jellyfin_show_organizer/planner.py:358-442 | The condition in terms of episodes: all connected sources match some episodes, none twice, and the same ones |
| DuplicateClassifier.PreferenceWinner | jellyfin_show_organizer/duplicate_classifier.py:116-156 | The winner by preference is the unique candidate of highest rank, if there is one |
| DuplicateClassifier.ExactHashWinner | jellyfin_show_organizer/duplicate_classifier.py:102-113 | All hashes known and equal, exactly then the first operation is taken |
| DuplicateClassifier.ReleaseQualityWinner | jellyfin_show_organizer/duplicate_classifier.py:159-180 | The winner by quality is the one that the quality policy selects |
| DuplicateClassifier.DuplicateResult | jellyfin_show_organizer/duplicate_classifier.py:194-249 | The decision is right: preference before equal hashes before quality, losers are all others in order, confidence by basis |
| DuplicateClassifier.ConfidencesAre | jellyfin_show_organizer/duplicate_classifier.py:194-249 | The confidence is 1.0 by preference or equal hashes, 0.8 by quality, 0.5 without a winner |
| DuplicateClassifier.ClassifyDuplicateCandidates | jellyfin_show_organizer/duplicate_classifier.py:278-320 | Refused exactly when an operation repeats; otherwise one right result for each destination that two candidates share, in key order |
| DuplicateClassifier.OrderDoesNotMatter | jellyfin_show_organizer/duplicate_classifier.py:278-320 | Inputs with the same candidates have the same results in the same order |
| DuplicateClassifier.SameForEveryOrder | jellyfin_show_organizer/duplicate_classifier.py:300-311 | Whether the input is refused does not depend on its order |
| DuplicateClassifier.EachOperationOnce | jellyfin_show_organizer/duplicate_classifier.py:300-320 | Every operation is in at most one group, and once |
| DuplicateClassifier.DecidedGroupsAreWhole | jellyfin_show_organizer/duplicate_classifier.py:227-249 | Winner and losers together are exactly the candidates; without a winner there are no losers; a group of several identities never has a winner |
| DuplicateClassifier.PreferenceIsAuthoritative | jellyfin_show_organizer/duplicate_classifier.py:194-211 | Where a preference is given, only the unique highest one decides |
| ReleaseQuality.SelectUniqueWinner | jellyfin_show_organizer/release_quality.py:159-239 | Selects exactly the candidate that the policy calls the winner, if there is one, and names the dimensions in which it leads; one is always named |
| ReleaseQuality.WinnerIsUnique | jellyfin_show_organizer/release_quality.py:146-156 | There is never more than one dominating candidate |
| ReleaseQuality.WinnerExactly | jellyfin_show_organizer/release_quality.py:146-239 | The winner in plain numbers, both ways: every strict leader in resolution and revision among comparable candidates is the winner, given the sources allow it |
| ReleaseQuality.WinnerIsBest | jellyfin_show_organizer/release_quality.py:146-156 | A winner yields to nobody in any dimension and differs from everybody |
| ReleaseQuality.WinnerWinsSelections | jellyfin_show_organizer/release_quality.py:159-239 | A winner wins every selection of two or more candidates that it belongs to |
| ReleaseQuality.ChoiceFollowsOrder | jellyfin_show_organizer/release_quality.py:159-239 | The choice follows every rearrangement of the candidates |
| ReleaseQuality.LoserDoesNotMatter | jellyfin_show_organizer/release_quality.py:159-239 | Removing a candidate that did not win keeps the winner while two remain |
| CompactAbbreviation.Walk | jellyfin_show_organizer/filename_parser.py:276-295 | The pruned search counts distinct ways only, and all of them unless it has found two; a count it does not raise means that no way extends the choice |
| CompactAbbreviation.TryLength | jellyfin_show_organizer/filename_parser.py:286-295 | One prefix length tried: the ways counted grow by exactly those that begin with this length, and none is missed while fewer than two are found |
| CompactAbbreviation.WayContinues | jellyfin_show_organizer/filename_parser.py:287-289 | The remaining-length bound and the prefix check cut off no way |
| CompactAbbreviation.CompactParentAbbreviationMatches | jellyfin_show_organizer/filename_parser.py:265-297 | True if and only if there is one token, two to five words of at least three letters, and exactly one choice of prefix lengths, each at least two and one of them shorter than its word, that spells the token |
## Left out

- Links, junctions, locks, permissions, device checks, `fsync`, timestamps and the system call behind the rename: a location holds a file or nothing, and a rename that never replaces is one step.
- A file or link that stands where a directory is needed counts as a failure of the step that makes the directory; a member's place that is itself a directory, and the failure of a rename because a directory is missing, are not modelled.
- Other processes: between two steps of a run nothing else touches the files.
- `os.path.lexists` takes any failure of its own for absence; it is assumed not to fail. An interrupt that arrives between two steps counts as a failure or a stop of one of them.
- Hashing, JSON and TOML text, approval tokens, provenance, schema checks and the check-only modes; a fingerprint is compared as a value. A journal is a sequence of lines and a shape; the detail and recovery texts of its failure and rollback lines, which may quote paths, are not part of a line.
- A journal line holds the key of a member where the code writes the paths and folds them when reading; key functions keep line breaks, as case-folding does. In `DerivedPlan` roots are absolute paths that compare as strings.
- Resolving relative paths under their roots: a location is a root and a path with forward slashes.
- Unicode normalization and case folding are given functions, or assumed done; code points that fold into the letters of a reserved name do not exist outside ASCII.
- Digests are arbitrary functions to ten hexadecimal digits.
- Regular expressions, title similarity, show resolution and the parsing of file names and release names: matchers, parsed tokens and parsed quality are inputs.
- Evidence strings, confidences of assignments and reasons: of an assignment's evidence only what a later pass looks for is kept, so passes that add evidence alone (`_append_catalog_diagnostics`, `_annotate_accessory`, `_rewrite_provider_aka_recovery_evidence`) change nothing in the model.
- Names are compared by their position in a sort order; equal positions stand for equal names in the sorted lists.
- The kinds of error that derivation of contract and plan may raise are one: no result.
- ApplyTheorems.StoppedRunsResume: covers no run that stopped inside a rollback or whose rollback left the journal vouching for a member of its group; what those do to a later resume is, exactly, in ApplyTheorems.ResumeCompletesExactly.
- JournalReplay.QuietRunReplays: speaks of a first run without faults; the journal of a resumed run may start a group or complete a member a second time, which replay refuses.
- RestoreTheorems.QuarantineThenRestoreIsIdentity: assumes that a step of restore that fails leaves nothing behind; without it RestoreTheorems.RestoreUndoesQuarantine gives the exact condition.
- PreflightReadiness.ReadyMeansDistinctExactly: speaks of any settled plan; that duplicate decisions come before preflight (`planner.py:704-852`) and leave few videos with one destination is not part of its condition.
- The part of preflight that looks at the disk and at identities of groups, and `find_destination_collisions`.
- Building destinations from titles and numbers, companions, the review session, reports, providers, caches and the command line; rollback_execution.py is not part of this model.
