# Release and backup tooling: a verified model

The release and backup tools move a running service from one release to the next. They keep their state in several
places at once: write-once journal files, append-only event directories, `current.json`, the live database, retention
holds, a set of backups, and two lock files. This project models those tools in Dafny and proves what holds of all
these stores together, over every run, every interleaving and every crash. `dafny verify dfyconfig.toml` checks it.

## What is modelled

**Revision graphs** (`RevisionGraph`, `GraphBuild`, `GraphMerge`). Metadata collection, the depth-first cycle search
over two mutable sets, the worklist closure, the merge, the transition classes and the deltas planned on them. The
loops are proved against reachability defined by paths.

**Event directories and phase tables** (`EventLog`, `Phases`, `Ordering`). One numbered file per event, read back by
sorting names. Because the tables are acyclic no log comes near ten thousand events, and the newest name sorts last.
What the listing shows after an append on a stale reading is stated for any table.

**current.json** (`CurrentState`). The parser, and the documents each writer derives.

**The verified migration** (`MigrationProtocol` and the other `Migration...` modules, `RecoveryRun`). Migrations,
recoveries and prunes are processes over one disk. Every durable write is one step; a call may end normally, raise
without effect, or raise after its effect took place (`Torn`); a process may crash between any two steps; Alembic may
leave any heads. `run_migration` releases the rollout lock before its failure handler runs, so the handler is
interleaved with everybody else. `MigrationInvariant` has one lemma a durable write; `MigrationSteps` and
`MigrationRecovery` say what each process knows at each point; `MigrationFrame` says why the others go on knowing it;
`MigrationSafety` and `MigrationTheorems` state the result for every run; `MigrationLiveness`,
`MigrationProgress`, `MigrationStuck` and `MigrationRecoverable` say what can and cannot be reached any more, and
`MigrationEnds` what handlers, recoveries and prunes leave when left to themselves. `MigrationRun` and `RecoveryRun` are
`run_migration` and `recover_migration` as imperative procedures, statements that update stores and locals, each call
tied to one protocol step; the whole call succeeds if and only if its numbered calls end normally and find what they
look for, and otherwise the first that fails decides what is on disk.

**Retention and prune** (`RetentionHolds`, `Prune`, `PruneRun`). Candidate selection over a listing, the deletion loop,
and the algebra of prunes.

**The initial bootstrap** (`BootstrapProtocol` and the other `Bootstrap...` modules). Runs create, resume or recognise a
journal; the failure handler writes its event and result after the lock is gone, beside whatever run comes next on the
same journal. Appending an event and writing a result are two steps each, the check and the write, with anything in
between. `BootstrapSafety` has the invariant, `BootstrapTheorems` what holds however late a handler writes,
`BootstrapLogs` where each event file comes from and when the listing is a path, `BootstrapOverlap` exactly when logs
break and results are replaced, `BootstrapOpen` exactly when two journals are open; `BootstrapWitness` and
`BootstrapCollision` have histories in which all this happens. `BootstrapProgress` says from where a run can go on alone
to commit, and what a failed one records. `BootstrapRun` is `run_bootstrap_db`, with exactly when it succeeds.

**The config-only rollout** (`ConfigContract`, `ConfigGate`, `ConfigRollout`, `EnvFile`, `EnvEdit`, `EnvRollback`). Normal
forms, the delta gate, the transaction with its nested handlers, and the env-file editor against the env-file parser.

**Two smaller cores**: the npm `via` check (`NpmVia`, `NpmReport`) and the two-reader bounded runner (`BoundedRun`).

SHA-256 is an injective function of what is hashed. One atomic file replacement is one step. A file lock is mutual
exclusion that a crash releases. What a foreign call does is decided by an oracle: its ending, the heads or values it
leaves, the identifiers it makes up.

## What came out

- A migration that dies before it writes a result leaves a journal no recovery ever resolves, and that journal blocks
  every later migration (`MigrationLiveness.OrphansHappen`, `MigrationTheorems.OrphanForever`, `OrphanBlocks`). The
  recovery gate admits such a journal in `state_committed`, but there both recorded digests are stale: the expected
  one is taken over a compact rendering while the file is written indented with a new time stamp.
- A recovery that dies between publishing the document and writing its resolution leaves a journal of the same kind
  (`MigrationRecoverable.StrandedHappens`, `MigrationStuck.StrandedForever`). With nobody at work on it, an open
  migration can be resolved exactly when it recorded that it needs recovery and heads, document and hold fit one of the
  two actions; otherwise nothing that ever happens makes them fit (`MigrationRecoverable.ResolvedIff`).
- A merge can disagree with an earlier input: its conflict test does not see an earlier `None` entry. `EarlierGraphKept`
  says exactly when it agrees.
- The bootstrap's failure handler checks and writes without the lock. A committed bootstrap result can be overwritten by
  it (`BootstrapWitness.CommittedIsOverwritten`), and a log can come to hold two events under one number (`LogBreaks`).
  A result is replaced exactly when a run writes whose check was overtaken (`BootstrapOverlap.ResultReplacedIff`), a log
  is a path exactly when no such run wrote a file of its own (`LogIsPathExactly`), and one of the two runs is always an
  unlocked handler (`OvertakenByAnother`). That Alembic starts only on an empty database, that a committed journal
  means its heads are live, and that there is one at most, hold in any case.
- Two bootstrap journals can be open at once, and then no run gets past its choice (`BootstrapCollision.TwoOpenHappen`,
  `TwoOpenLate`, `BootstrapOpen.TwoOpenRefuses`). It takes a handler that looked for a result in time and writes
  `requires_recovery` over one that has closed its journal since; `BootstrapOpen.TwoOpenIff` says exactly when.
- A bootstrap run succeeds over a stored `requires_recovery` result and leaves it stored
  (`BootstrapWitness.SuccessOverRecovery`); what it leaves is committed exactly when it wrote it or saw it so
  (`BootstrapOverlap.SuccessStoredIff`, `BootstrapRun.Bootstrap.RunBootstrapDb`).
- A bootstrap run that dies before its plan is written leaves a journal that stops every later run
  (`BootstrapTheorems.DyingUnplanned`, `UnplannedForever`).
- The rollback of a config rollout loads back as the previous values exactly when each line that begins with a restored
  key assigns restored keys only and every other line none of them; the parser accepts more than the editor finds
  (`EnvRollback.RollbackThenLoad`, `EnvEdit.EditThenLoad`).
- A config rollout can end committed with the previous values persisted, in two ways: the call that writes the
  committed result raises after writing, or the persisted state is not written. `ConfigRollout.Transaction.Run` says
  exactly when; every later rollout then refuses on drift (`CommittedButNotPersisted`, `DriftHappens`).
- `downgrade` is not the reverse of `forward` for sets that are not antichains (`DowngradeBothWays`).

## Model

| member | source | states |
|---|---|---|
| `RevisionGraph.AncestorsLeast` | scripts/fetchnow_pg_backup/alembic_graph.py:133-150 | the ancestors of a head set are the least parent-closed set containing the heads |
| `RevisionGraph.HeadsCoverGraph` | scripts/fetchnow_pg_backup/alembic_graph.py:255-263 | in an accepted graph every revision is an ancestor of some head, so the head set is non-empty whenever there is a revision |
| `RevisionGraph.HeadsAreAntichain` | scripts/fetchnow_pg_backup/alembic_graph.py:255-263 | no head is an ancestor of another head |
| `GraphBuild.CollectRevisions` | scripts/fetchnow_pg_backup/alembic_graph.py:203-221 | collecting fails exactly on a duplicated revision, otherwise every listed revision keeps its own parents |
| `GraphBuild.CheckParents` | scripts/fetchnow_pg_backup/alembic_graph.py:223-235 | passes only parent-closed relations; a missing parent and a self-reference are each reported truthfully |
| `GraphBuild.CycleSearch.Visit` | scripts/fetchnow_pg_backup/alembic_graph.py:236-250 | the recursive visit terminates; it reports a cycle only when one exists, and otherwise leaves the visiting set as it was with the revision visited |
| `GraphBuild.CycleSearch.VisitParents` | scripts/fetchnow_pg_backup/alembic_graph.py:244-247 | the loop over parents restores the visiting set and leaves every parent visited, or has found a cycle |
| `GraphBuild.SearchCycles` | scripts/fetchnow_pg_backup/alembic_graph.py:236-253 | on a parent-closed relation the depth-first search raises exactly when the relation is cyclic |
| `GraphBuild.ComputeHeads` | scripts/fetchnow_pg_backup/alembic_graph.py:255-260 | the heads are exactly the revisions no other revision names as parent |
| `GraphBuild.BuildAlembicGraph` | scripts/fetchnow_pg_backup/alembic_graph.py:198-263 | accepts exactly the well-formed inputs (non-empty, distinct, parent-closed, acyclic); a cycle error means a cycle; the no-heads guard never fires |
| `GraphBuild.Ancestors` | scripts/fetchnow_pg_backup/alembic_graph.py:133-150 | the worklist raises exactly on unknown heads and otherwise computes reflexive-transitive reachability |
| `GraphBuild.Drain` | scripts/fetchnow_pg_backup/alembic_graph.py:141-150 | the loop over the stack, duplicates and all, terminates with a parent-closed set between the heads and any closed bound |
| `GraphMerge.MergeOne` | scripts/fetchnow_pg_backup/alembic_graph.py:180-189 | one merge step raises exactly on a conflict with an earlier entry that is not None, otherwise later entries win |
| `GraphMerge.MergeAlembicGraphs` | scripts/fetchnow_pg_backup/alembic_graph.py:177-195 | merging a list raises exactly where a step clashes or nothing is left to be a head, and otherwise gives the merged relation with its heads |
| `GraphMerge.MergeSound` | scripts/fetchnow_pg_backup/alembic_graph.py:177-195 | a merge of well-formed graphs that does not raise is well-formed, agrees with the last graph on that graph's revisions, and has heads |
| `GraphMerge.MergeKeepsLastAncestors` | scripts/fetchnow_pg_backup/alembic_graph.py:177-195 | ancestor sets of revisions the last graph knows are unchanged by the merge |
| `GraphMerge.EarlierGraphKept` | scripts/fetchnow_pg_backup/alembic_graph.py:182-187 | each graph of a merged list, of any length, agrees with the merge exactly when no later graph gives parents to one of its None entries |
| `GraphMerge.NoneEntryOverwritten` | scripts/fetchnow_pg_backup/alembic_graph.py:182-187 | a concrete pair of graphs whose merge does not raise and disagrees with the first |
| `GraphMerge.ClassifyTransition` | scripts/fetchnow_pg_backup/alembic_graph.py:162-174 | raises exactly on unknown heads and otherwise gives the one answer that holds of what is reached: equal sets; forward, a target head is new and every current head is reached; downgrade, no target head is new; divergent, each side has a head the other does not reach |
| `GraphMerge.ClassifyTells` | scripts/fetchnow_pg_backup/alembic_graph.py:162-174 | the four answers, stated by what heads reach, exclude each other and one always holds; the classification gives that one |
| `GraphMerge.EqualAndDivergentAreSymmetric` | scripts/fetchnow_pg_backup/alembic_graph.py:162-174 | equal and divergent are the same in both directions |
| `GraphMerge.PlanTransition` | scripts/fetchnow_release/deploy_plan.py:261-291 | planning refuses exactly unknown heads, a merge that clashes, a target that adds nothing, and a target that loses something; otherwise the delta is empty exactly for equal heads and completes the current ancestors to the target's |
| `GraphMerge.IncludedRevisions` | scripts/fetchnow_pg_backup/alembic_graph.py:152-160 | raises exactly on unknown heads and otherwise gives the delta defined by reachability |
| `GraphMerge.ForwardDelta` | scripts/fetchnow_pg_backup/alembic_graph.py:152-174 | a forward delta is non-empty, disjoint from the current ancestors, and together with them is the parent-closed set of target ancestors |
| `GraphMerge.PlannedDeltaIsTargetDelta` | scripts/fetchnow_release/migration_plan.py:330-395 | when the merge classifies forward, the delta taken on the target graph alone meets no unknown revision, equals the delta on the merge and is non-empty, so the empty-delta guard cannot fire |
| `GraphMerge.ForwardComposes` | scripts/fetchnow_pg_backup/alembic_graph.py:152-174 | forward transitions compose, and the composite delta is the disjoint union of the two |
| `GraphMerge.ForwardIffReverseDowngrade` | scripts/fetchnow_pg_backup/alembic_graph.py:162-174 | the reverse of a forward transition is a downgrade, and a downgrade reverses to forward exactly unless both directions are downgrades |
| `GraphMerge.DowngradeReverses` | scripts/fetchnow_pg_backup/alembic_graph.py:162-174 | between antichains a downgrade always reverses to forward |
| `GraphMerge.DowngradeBothWays` | scripts/fetchnow_pg_backup/alembic_graph.py:162-174 | without antichains both directions of one transition can be downgrades |
| `EventLog.EventDirectory.Append` | scripts/fetchnow_release/migration_journal.py:245-268 | appending succeeds exactly when the table allows it, never collides with a file, extends the log by one event and otherwise changes nothing |
| `EventLog.EventDirectory.Latest` | scripts/fetchnow_release/migration_journal.py:341-348 | the status read from the sorted listing is the one appended last |
| `EventLog.LastNameIsNewest` | scripts/fetchnow_release/journal.py:277-284 | the file name that sorts last is the one appended last, for every log shorter than ten thousand events |
| `EventLog.NextNameIsFree` | scripts/fetchnow_release/journal.py:243-270 | the next numbered name is taken by no file |
| `EventLog.TenThousandthSortsEarlier` | scripts/fetchnow_release/journal.py:243-270 | the ten-thousandth four-digit name sorts before its predecessor, so the bound is exact |
| `EventLog.PathIsShort` | scripts/fetchnow_release/migration_journal.py:245-268 | a log that follows an acyclic table is no longer than the table is high |
| `EventLog.ListingOfLog` | scripts/fetchnow_release/bootstrap_journal.py:250-258 | what was appended one after the other is what the sorted listing reads, in order |
| `EventLog.StaleAppendListing` | scripts/fetchnow_release/bootstrap_journal.py:224-247 | an event written under a number that was taken since lands beside the event that took it, in the order of the two names, before everything appended later |
| `EventLog.OverlappingAppends` | scripts/fetchnow_release/bootstrap_journal.py:224-247 | two writers that read the same listing write under the same number; whoever writes second, the listing is then a path exactly when they wrote one and the same file or the status that sorts second may follow the other |
| `EventLog.SharedNumberBreaks` | scripts/fetchnow_release/bootstrap_journal.py:224-247 | two files under one number break the log for good, whatever is appended later, if no status may follow a sibling that sorts before it |
| `EventLog.NameDetermines` | scripts/fetchnow_release/bootstrap_journal.py:236-237 | a file name gives back its number and its status |
| `Phases.LogsAreShort` | scripts/fetchnow_release/c3b2b2_constants.py:43-87 | migration, bootstrap, config-rollout and deployment logs have at most 11, 7, 5 and 9 events |
| `Phases.NeverEnteredAgain` | scripts/fetchnow_release/c3b2b2_constants.py:43-87 | ranks only rise along a migration log, so its phases are pairwise distinct: one once left is never entered again |
| `Phases.SiblingsNeverFollow` | scripts/fetchnow_release/c3b3_constants.py:27-70 | of two bootstrap statuses that may both follow a third, the one whose name sorts second never follows the other |
| `Ordering.SortedIsUnique` | scripts/fetchnow_release/current_state.py:112-131 | a sorted duplicate-free list is determined by its elements |
| `CurrentState.MigrationPublishes` | scripts/fetchnow_release/current_state.py:613-649 | a migration over a non-empty head set never raises; the document it builds is accepted, has exactly the target heads, its id, contract hash, release and time stamp, and grows the envelope by the target release |
| `CurrentState.AppCommitPublishes` | scripts/fetchnow_release/current_state.py:652-677 | an application commit raises exactly outside the envelope; it carries its application and time stamp, grows the envelope and changes neither the heads nor what is said of the last migration |
| `CurrentState.HistorySound` | scripts/fetchnow_release/current_state.py:278-354 | over every history of bootstrap, commits and migrations each document parses back to itself, the envelope only grows and always holds the schema release and the active revision |
| `CurrentState.AcceptedIffReached` | scripts/fetchnow_release/current_state.py:335-354 | the parser accepts exactly the documents that some history of bootstrap, application commits and migrations ends in |
| `MigrationInvariant.JournalCreated` | scripts/fetchnow_release/migrate.py:464-467 | creating the journal directory keeps every relation among the stores |
| `MigrationInvariant.EventAppended` | scripts/fetchnow_release/migration_journal.py:245-268 | a legal event keeps every relation among the stores |
| `MigrationInvariant.CommittedWritten` | scripts/fetchnow_release/migrate.py:718-728 | the committed result may be written only with the published document and the target heads live; then nothing is open and saved and live heads agree |
| `MigrationInvariant.FailedWritten` | scripts/fetchnow_release/migrate.py:346-360 | a failed result closes a journal whose database was never touched, so saved and live heads agree |
| `MigrationInvariant.RecoveryRequired` | scripts/fetchnow_release/migrate.py:341-360 | a requires-recovery result leaves the journal open and protected |
| `MigrationInvariant.ResolutionWritten` | scripts/fetchnow_release/migration_recover.py:355-362 | a resolution may be written only when saved and live heads agree |
| `MigrationInvariant.Upgraded` | scripts/fetchnow_release/migrate.py:605-625 | Alembic may leave any heads: with the started event logged and an active hold, the relations among the stores survive |
| `MigrationInvariant.CurrentPublished` | scripts/fetchnow_release/migrate.py:692-706 | publishing the planned document keeps the relations among the stores |
| `MigrationInvariant.HoldReleased` | scripts/fetchnow_pg_backup/retention_hold.py:239-252 | a hold may be released once its migration is settled or if the database was never touched |
| `MigrationInvariant.BackupDeleted` | scripts/fetchnow_pg_backup/prune.py:140-161 | deleting a backup no unreleased hold names keeps the relations among the stores |
| `MigrationSteps.MigrateTurnGood` | scripts/fetchnow_release/migrate.py:417-740 | every statement of the transaction and of its failure handler, however its call ends, keeps the disk invariant and what the process knows |
| `MigrationRecovery.RecoverTurnGood` | scripts/fetchnow_release/migration_recover.py:137-381 | every step of a recovery keeps the disk invariant and what the recovery knows |
| `MigrationRecovery.PruneTurnGood` | scripts/fetchnow_pg_backup/prune.py:135-164 | every step of a prune keeps the disk invariant |
| `MigrationRecovery.PublishedMatchesNoDigest` | scripts/fetchnow_release/migration_plan.py:123-147 | once published, current.json has neither of the two digests the plan recorded |
| `MigrationRecovery.ExpectedDigestNeverMatches` | scripts/fetchnow_release/migration_plan.py:123-147 | the expected digest is over the compact rendering and a file is written indented; that the two renderings differ is an assumption of the model |
| `MigrationRecovery.CommittedStateIsPublished` | scripts/fetchnow_release/migrate.py:699-709 | an open journal with state_committed logged has its document published |
| `MigrationRecovery.MissingResultIsNeverRecovered` | scripts/fetchnow_release/migration_recover.py:160-165 | accepting a journal without a result, which the gate admits in state_committed, always ends without a write |
| `MigrationFrame.TurnMoves` | scripts/fetchnow_release/migrate.py:417-786 | a step changes only the journals, holds and stores its process owns or has locked; what is on disk is only added to |
| `MigrationFrame.OwnerStable` | scripts/fetchnow_release/rollout_lock.py:22-79 | what a lock-holding migration knows survives every step of every process without the lock |
| `MigrationFrame.HandlerStable` | scripts/fetchnow_release/migrate.py:323-382 | what the unlocked failure handler relies on survives every step of every other process |
| `MigrationFrame.RecovererStable` | scripts/fetchnow_release/migration_recover.py:186-381 | what a recovery knows survives every step of the others |
| `MigrationSafety.AdvanceInv` | scripts/fetchnow_release/migrate.py:417-786 | the invariant of disk, locks and all processes survives a step of any process |
| `MigrationSafety.CrashInv` | scripts/fetchnow_release/rollout_lock.py:60-79 | and a crash of any process at any point |
| `MigrationSafety.RunInv` | scripts/fetchnow_release/migrate.py:417-786 | it holds in every state of every run |
| `MigrationTheorems.SavedHeadsAreLive` | scripts/fetchnow_release/migration_journal.py:351-362 | with no migration open, current.json is well formed and names exactly the live heads |
| `MigrationTheorems.OneMigrationOpen` | scripts/fetchnow_release/migration_journal.py:482-494 | at most one migration is unresolved |
| `MigrationTheorems.OpenMigrationOwnsCurrent` | scripts/fetchnow_release/migrate.py:681-706 | while a migration is open, current.json is the document it was planned from or the one it published; before Alembic it still names the live heads |
| `MigrationTheorems.OpenMigrationKeepsItsBackup` | scripts/fetchnow_pg_backup/prune.py:151-160 | once Alembic was started for an open migration, an active hold names a backup that has not been deleted |
| `MigrationTheorems.ReleasedHoldIsSettled` | scripts/fetchnow_release/migrate.py:731-740 | a hold released after Alembic started belongs to a migration with a committed result or a resolution |
| `MigrationTheorems.ResultMatchesLog` | scripts/fetchnow_release/migration_journal.py:245-323 | failed means never started, requires-recovery means started and not state-committed, committed means state-committed, a result repeats the last event, and Alembic is logged before it is started |
| `MigrationTheorems.HistoryIsKept` | scripts/fetchnow_release/migration_journal.py:234-323 | over every run plans, results and resolutions are written once, logs only extended and releases permanent |
| `MigrationTheorems.OrphanForever` | scripts/fetchnow_release/migration_recover.py:150-169 | a journal left without a result stays exactly as it is: no later recovery resolves it |
| `MigrationTheorems.OrphanBlocks` | scripts/fetchnow_release/migrate.py:426-431 | and as long as it is there no migration gets past its gates |
| `MigrationLiveness.RecoveryResolves` | scripts/fetchnow_release/migration_recover.py:186-381 | from every reachable state, recovering a requires-recovery journal whose heads and digest fit the action ends with it resolved, nothing open and saved heads live |
| `MigrationLiveness.RecoveryRefuses` | scripts/fetchnow_release/migration_recover.py:231-316 | and otherwise recovery writes nothing |
| `MigrationLiveness.DyingLeavesAnOrphan` | scripts/fetchnow_release/migrate.py:464-470 | from every reachable state in which a migration may begin, dying right after its journal was created leaves an orphan |
| `MigrationLiveness.OrphansHappen` | scripts/fetchnow_release/migration_recover.py:160-169 | the concrete case: a reachable state with a migration no recovery can resolve |
| `MigrationStuck.HopelessForever` | scripts/fetchnow_release/migration_recover.py:231-316 | a requires-recovery journal to which no action applies, with no recovery past its checks, stays so in every later state: its heads, document and holds are what they are for good |
| `MigrationStuck.StrandedForever` | scripts/fetchnow_release/migration_recover.py:231-316 | so is one whose document is already published, and its document stays published |
| `MigrationStuck.DyingAfterPublishing` | scripts/fetchnow_release/migration_recover.py:312-362 | and that is where accept_target leaves it when it dies between publishing and resolving, from every reachable state in which it would have succeeded |
| `MigrationRecoverable.ResolvedIff` | scripts/fetchnow_release/migration_recover.py:137-362 | from every reachable state with nobody at work on an open journal: some run closes it exactly when it recorded requires-recovery and heads, document and an active hold fit one of the two actions |
| `MigrationRecoverable.ComesToAwait` | scripts/fetchnow_release/migrate.py:323-382 | from every reachable state in which nothing is open and nobody is at work, a migration to any other heads can come to need recovery with accept_target applying |
| `MigrationRecoverable.StrandedHappens` | scripts/fetchnow_release/migration_recover.py:312-362 | the concrete case: a reachable state whose open migration some run resolves, and a later one that no run resolves any more, after accept_target published and died |
| `MigrationEnds.FailureIsRecorded` | scripts/fetchnow_release/migrate.py:323-382 | from every reachable state in which a failed migration's handler is next, the handler left to itself ends with the terminal phase logged and stored as the result, if the last phase allows it, with the hold of a migration that never touched the database released, and nothing else changed |
| `MigrationEnds.TakesTerminalIff` | scripts/fetchnow_release/migrate.py:340-360 | which journals take the terminal event: after which phases `failed` and after which `requires_recovery` may follow |
| `MigrationEnds.CommittedReleases` | scripts/fetchnow_release/migrate.py:730-745 | a committed migration left to itself releases its hold and changes nothing else |
| `MigrationEnds.RecoveryReleases` | scripts/fetchnow_release/migration_recover.py:373-381 | a recovery that comes to opening the backup root and is left to itself ends with its hold released and nothing else changed |
| `MigrationEnds.ReleaseHoldFrees` | scripts/fetchnow_release/migration_recover.py:217-238 | from every reachable state with a committed migration whose matching hold is active, release_hold by itself leaves it without an active hold and changes nothing else |
| `MigrationEnds.AcceptFrees` | scripts/fetchnow_release/migration_recover.py:240-381 | where an accept action applies, the recovery by itself ends with the migration resolved, nothing open, saved heads live and no active hold |
| `MigrationEnds.FreeBackupsGo` | scripts/fetchnow_pg_backup/prune.py:119-166 | a prune by itself deletes exactly those of its candidates that no unreleased hold is for |
| `MigrationProgress.CanComplete` | scripts/fetchnow_release/migrate.py:468-729 | from every state it can get into, a migration alone in its locked section can go on to a committed result; after Alembic that takes no more than the target heads being live |
| `MigrationProgress.MayPlanIff` | scripts/fetchnow_release/migrate.py:420-463 | in reachable states a migration passes its gates exactly when nothing is open, its name is free and its target heads are not the saved ones: with nothing open the drift gate never fires |
| `MigrationProgress.MigrationCanCommit` | scripts/fetchnow_release/migrate.py:417-729 | so from every reachable state in which nothing is open and nobody is at work, a migration to any other heads can commit, with the plan that was drawn up, the target heads live and saved, and its contract and release in the document |
| `MigrationProgress.CommitsHappen` | scripts/fetchnow_release/migrate.py:417-729 | the concrete case: a reachable state with a committed migration |
| `MigrationRun.Migration.CreateJournal` | scripts/fetchnow_release/migrate.py:420-468 | the gates and the creation of the journal, as one protocol step |
| `MigrationRun.Migration.Append` | scripts/fetchnow_release/migration_journal.py:245-268 | an event is appended exactly when legal; a torn append has taken effect |
| `MigrationRun.Migration.AcquireRetentionHold` | scripts/fetchnow_pg_backup/session.py:100-158 | the hold is published and remembered only if the call returned |
| `MigrationRun.Migration.Protect` | scripts/fetchnow_release/migrate.py:468-558 | plan, backup and hold in order, each call the protocol's next step |
| `MigrationRun.Migration.Revalidate` | scripts/fetchnow_release/migrate.py:560-607 | the source heads are checked again; the post-mutation flag is set exactly when the call that logs the started event returned, so a torn append leaves it unset with the event logged |
| `MigrationRun.Migration.UpgradeAndVerify` | scripts/fetchnow_release/migrate.py:608-668 | going on means the target heads are live |
| `MigrationRun.Migration.Commit` | scripts/fetchnow_release/migrate.py:681-729 | compare-and-set, publication, events and result in order; success means all of them are on disk |
| `MigrationRun.Migration.TerminalFailure` | scripts/fetchnow_release/migrate.py:323-382 | on disk: exactly the journal with the terminal event and result as far as its last phase and the two calls allow, and the hold of a run that failed before mutation released as far as the two calls after them went |
| `MigrationRun.Migration.ReleaseHoldIfNeeded` | scripts/fetchnow_release/migrate.py:303-320 | the hold is released exactly if the two calls went through; nothing else changes, and it never raises |
| `MigrationRun.Migration.RunMigration` | scripts/fetchnow_release/migrate.py:385-793 | success exactly when each of the first 24 calls ends normally and finds what it looks for; then committed, target heads live, the published document derived from the loaded one and the hold let go; otherwise the first call that failed decides what is left on disk, journal, event, result and hold |
| `MigrationRun.EveryStepIsReachable` | scripts/fetchnow_release/migrate.py:385-793 | after each call of that code the stores are a reachable state of the protocol, so all its guarantees apply |
| `RecoveryRun.Recovery.ReadJournal` | scripts/fetchnow_release/migration_recover.py:137-169 | the gate, before any lock: refused exactly when the journal does not admit the action |
| `RecoveryRun.Recovery.Check` | scripts/fetchnow_release/migration_recover.py:186-312 | going on means a matching active hold and, when accepting, an open journal; publishing again means target heads and base digest |
| `RecoveryRun.Recovery.Resolve` | scripts/fetchnow_release/migration_recover.py:355-362 | the resolution is written once, for this action |
| `RecoveryRun.Recovery.ReleaseTheHold` | scripts/fetchnow_release/migration_recover.py:373-381 | going through exactly when both calls did and the hold was there and unreleased, and then it is released; a failure is raised |
| `RecoveryRun.Recovery.RecoverMigration` | scripts/fetchnow_release/migration_recover.py:120-406 | the outcome is exactly the earlier resolution if there is one, else the action exactly when the gate admits it and every call went through with matching hold, heads and document; then the hold is released and the action stored; a refused journal is untouched |
| `RetentionHolds.ActiveHoldForBackup` | scripts/fetchnow_pg_backup/retention_hold.py:273-295 | the search loop gives the first live entry that matches or cannot be read |
| `RetentionHolds.FreeIffEveryHoldIsElsewhere` | scripts/fetchnow_pg_backup/retention_hold.py:273-295 | a backup is free exactly when every unreleased hold was readable and is for another backup |
| `RetentionHolds.HeldIsFirstMatch` | scripts/fetchnow_pg_backup/retention_hold.py:273-295 | what is reported is the first match, with everything before it readable |
| `Prune.MalformedHoldStopsPrune` | scripts/fetchnow_pg_backup/prune.py:84-94 | one unreleased hold that cannot be read makes the delete set empty |
| `Prune.PruneResumes` | scripts/fetchnow_pg_backup/prune.py:36-116 | a prune resumed after any part of its deletions, or followed by a stricter one, ends where the stricter one alone ends |
| `Prune.PrunesCombine` | scripts/fetchnow_pg_backup/prune.py:36-116 | prune(k1) then prune(k2) is prune(min(k1, k2)) |
| `PruneRun.NewestPassed` | scripts/fetchnow_pg_backup/prune.py:50-54 | the first passed entry of the newest-first list is the newest verified backup |
| `PruneRun.PositionIsRank` | scripts/fetchnow_pg_backup/prune.py:45-68 | a position in the newest-first list counts the newer valid backups |
| `PruneRun.Decide` | scripts/fetchnow_pg_backup/prune.py:69-115 | the decision on one backup, by position, is the verdict defined by counting |
| `PruneRun.SelectPruneCandidates` | scripts/fetchnow_pg_backup/prune.py:36-116 | raises exactly below one; otherwise the decisions are the verdicts of the listed entries, and the deletions exactly the unprotected backups with at least keep newer ones |
| `PruneRun.VerdictsDelete` | scripts/fetchnow_pg_backup/prune.py:57-116 | acting on the verdicts deletes exactly what the retention rule lets go |
| `PruneRun.BackupRoot.PruneBackups` | scripts/fetchnow_pg_backup/prune.py:119-166 | whatever deletion fails, only candidates go; it succeeds exactly when all of them went |
| `BootstrapProtocol.FindUnresolvedBootstraps` | scripts/fetchnow_release/bootstrap_journal.py:341-362 | finds exactly the journals without a final result |
| `BootstrapProtocol.FindMatchingCommittedBootstrap` | scripts/fetchnow_release/bootstrap_journal.py:396-435 | raises exactly on a partial match or two matches, otherwise gives the one committed journal of the release |
| `BootstrapSafety.TurnEffect` | scripts/fetchnow_release/bootstrap_db.py:264-613 | a step of a run or of its handler writes one thing at most, in its own journal, and only Alembic changes the database |
| `BootstrapSafety.DiskGood` | scripts/fetchnow_release/bootstrap_db.py:264-613 | every write keeps the invariant of the journals: committed events and results are for the live heads, one journal at most has no result, one at most is committed, never both; also when it replaces a result or a file |
| `BootstrapSafety.ResultWritten` | scripts/fetchnow_release/bootstrap_db.py:144-169 | a result may be written even over another; a committed one only with the live heads equal to the plan's, no committed journal before it and no other at work |
| `BootstrapSafety.TurnKnows` | scripts/fetchnow_release/bootstrap_db.py:264-613 | every step leaves the run with what its next place asks for |
| `BootstrapSafety.UnlockedKeeps` | scripts/fetchnow_release/bootstrap_db.py:564-606 | a handler without the lock, however late it writes, changes no database and no plan, takes nothing away and makes no journal committed |
| `BootstrapSafety.Undisturbed` | scripts/fetchnow_release/bootstrap_db.py:564-606 | so what the run holding the lock knows survives it |
| `BootstrapSafety.HistoryInv` | scripts/fetchnow_release/bootstrap_db.py:264-613 | the invariant holds in every state of every history |
| `BootstrapTheorems.AlembicStartsOnEmpty` | scripts/fetchnow_release/bootstrap_db.py:430-480 | Alembic is started only on an empty database, for the journal's own plan, and never once a journal is committed |
| `BootstrapTheorems.JournalsAreSound` | scripts/fetchnow_release/bootstrap_db.py:264-541 | a committed result or event means the live heads are its plan's; one journal at most has no result, one at most is committed, and there are never both |
| `BootstrapTheorems.MultipleCommittedNeverFires` | scripts/fetchnow_release/bootstrap_journal.py:396-435 | at most one journal is committed at all: the second guard of the search never fires, and the first is exact |
| `BootstrapTheorems.LiveStays` | scripts/fetchnow_release/bootstrap_db.py:426-480 | once the database holds anything it never changes, Alembic is never started again and no journal is created |
| `BootstrapTheorems.DyingUnplanned` | scripts/fetchnow_release/bootstrap_journal.py:438-445 | in every history a run that dies before its plan is written leaves a journal of its own without plan or result |
| `BootstrapTheorems.UnplannedForever` | scripts/fetchnow_release/bootstrap_db.py:282-300 | such a journal stays as it is for good, and no later run gets past the choice of its journal |
| `BootstrapProgress.CanCommit` | scripts/fetchnow_release/bootstrap_db.py:343-563 | wherever a run stands at an append or before Alembic, in any history, it can go on alone to a committed result and live target heads, if its log takes the next event and no result was stored |
| `BootstrapProgress.CanBootstrap` | scripts/fetchnow_release/bootstrap_db.py:233-563 | over an empty database with nothing open and nobody holding the lock, a run under any free name can create its journal and go on alone to commit it |
| `BootstrapProgress.CanResume` | scripts/fetchnow_release/bootstrap_db.py:279-563 | the one open journal of this release without a result can be resumed and committed by a run alone: over the target heads with any log, over an empty database with a log that has not gone past the schema |
| `BootstrapProgress.FailureIsRecorded` | scripts/fetchnow_release/bootstrap_db.py:564-606 | a failed run's handler left to itself appends the event that is due exactly if the log takes it, stores the result exactly if there is none, and changes nothing else |
| `BootstrapLogs.HistoryGrows` | scripts/fetchnow_release/bootstrap_journal.py:213-248 | over every history no journal, plan, event file or result goes away, and no plan changes |
| `BootstrapLogs.FilesAreKept` | scripts/fetchnow_release/bootstrap_journal.py:224-247 | an event file keeps its status for good, and readings of the same size read the same files |
| `BootstrapLogs.HistoryTraced` | scripts/fetchnow_release/bootstrap_journal.py:224-247 | each file goes back to a reading that allowed it, under the number that reading counted |
| `BootstrapLogs.CollisionNeverFires` | scripts/fetchnow_release/bootstrap_journal.py:236-239 | the number an append counts is free in every state, so its collision test never fires at the check |
| `BootstrapLogs.LogIsPathIff` | scripts/fetchnow_release/bootstrap_journal.py:224-258 | in every state of every history the listing is a path of the table exactly when no two files carry one number |
| `BootstrapOverlap.OvertakenByAnother` | scripts/fetchnow_release/bootstrap_db.py:564-606 | whoever finds what it checked overtaken was overtaken by another run before the same journal, and one of the two was a handler without the lock |
| `BootstrapOverlap.AppendKeepsPathIff` | scripts/fetchnow_release/bootstrap_journal.py:224-247 | an append to a path leaves a path exactly when the run was not overtaken, or writes the very file that is there |
| `BootstrapOverlap.LogIsPathExactly` | scripts/fetchnow_release/bootstrap_journal.py:224-247 | in every state the log is a path exactly when no run that was overtaken has written a file of its own before |
| `BootstrapOverlap.CalmLogIsPath` | scripts/fetchnow_release/bootstrap_journal.py:224-247 | a journal before which nobody was overtaken has a path for a log |
| `BootstrapOverlap.ResultReplacedIff` | scripts/fetchnow_release/bootstrap_journal.py:326-331 | a result is replaced exactly when a run that was overtaken writes another outcome |
| `BootstrapOverlap.CalmResultStays` | scripts/fetchnow_release/bootstrap_journal.py:326-331 | a journal before which nobody was overtaken has its result written once |
| `BootstrapOverlap.CommittedForever` | scripts/fetchnow_release/bootstrap_db.py:144-169 | and once committed stays committed |
| `BootstrapOverlap.SuccessStoredIff` | scripts/fetchnow_release/bootstrap_db.py:144-169 | a run that succeeds has a committed result stored exactly when it wrote one or saw one; any other result it sees is left, and it succeeds all the same |
| `BootstrapOpen.ReopensIff` | scripts/fetchnow_release/bootstrap_db.py:564-606 | a closed journal is open after a step exactly when a handler past its test writes requires_recovery over a result that is not |
| `BootstrapOpen.OpenedUnderPreparing` | scripts/fetchnow_release/bootstrap_db.py:279-322 | a run is about to create a journal while one is open only if that one was opened again under it, and has been open beside it since |
| `BootstrapOpen.TwoOpenIff` | scripts/fetchnow_release/bootstrap_journal.py:341-362 | over every history: two journals are open in some state exactly when some step opens a closed one again, with another open at that step or created after it while it is still open |
| `BootstrapOpen.TwoOpenRefuses` | scripts/fetchnow_release/bootstrap_db.py:282-288 | as long as two are open no run gets past the choice of its journal |
| `BootstrapOpen.RecoveryStaysIff` | scripts/fetchnow_release/bootstrap_journal.py:326-347 | a requires-recovery result stays exactly until a run whose check was overtaken writes another status over it |
| `BootstrapOpen.RecoveryBlocksForever` | scripts/fetchnow_release/bootstrap_journal.py:326-347 | until then no other journal is created, unless its own was closed before and opened again under a run about to create one |
| `BootstrapCollision.TwoOpenHappen` | scripts/fetchnow_release/bootstrap_db.py:564-606 | for every release a history in which a paused handler opens its closed journal again beside a second one |
| `BootstrapCollision.TwoOpenLate` | scripts/fetchnow_release/bootstrap_db.py:564-606 | and one in which it does so under a run that then creates the second |
| `BootstrapWitness.CommittedIsOverwritten` | scripts/fetchnow_release/bootstrap_db.py:564-606 | for every release a history in which a handler, paused after its test, overwrites a committed result with requires_recovery |
| `BootstrapWitness.SuccessOverRecovery` | scripts/fetchnow_release/bootstrap_db.py:383-418 | for every release a history in which a run succeeds over a stored requires_recovery |
| `BootstrapWitness.LogBreaks` | scripts/fetchnow_release/bootstrap_journal.py:224-247 | for every release a history in which two events take one number and the log is no path any more |
| `BootstrapWitness.UnplannedHappens` | scripts/fetchnow_release/bootstrap_journal.py:438-445 | for every release a history that ends with a journal without a plan and nobody at work on it |
| `BootstrapRun.Bootstrap.Choose` | scripts/fetchnow_release/bootstrap_db.py:279-343 | resume, recognise, create or refuse, exactly as what is open and committed and the inspection allow |
| `BootstrapRun.Bootstrap.Decide` | scripts/fetchnow_release/bootstrap_db.py:383-440 | going on exactly when the call went through and the database was seen at the target of a journal that was found, or proven empty for one that was not committed before |
| `BootstrapRun.Bootstrap.Append` | scripts/fetchnow_release/bootstrap_journal.py:224-247 | the check and the write as two steps: on a log that is a path it raises exactly when the table refuses the event or one of the two calls fails, and otherwise the log is longer by that event; no result changes |
| `BootstrapRun.Bootstrap.CreateSchema` | scripts/fetchnow_release/bootstrap_db.py:442-541 | from an empty database, with a log that is a path: going through exactly when the log has not gone past the schema, every call due went through and Alembic left the target heads; then they are live and a result is stored, committed exactly if there was none or a committed one; for a call with no handler of another run writing in between |
| `BootstrapRun.Bootstrap.CloseKnown` | scripts/fetchnow_release/bootstrap_db.py:392-418 | closes the journal from wherever it stands, with a log that is a path exactly when every call due from there went through, with a committed result exactly if there was none or a committed one; for a call with no handler of another run writing in between |
| `BootstrapRun.Bootstrap.HandleFailure` | scripts/fetchnow_release/bootstrap_db.py:564-606 | the handler, step for step; it never touches the database |
| `BootstrapRun.Bootstrap.RunBootstrapDb` | scripts/fetchnow_release/bootstrap_db.py:184-613 | the whole call is a run of the protocol to its end; over journals whose logs are paths it succeeds exactly when every call it comes to goes through, a journal may be chosen or created, the log takes what is due, and the database is or comes to be at the target; the result it leaves is committed exactly if there was none before the call, or a committed one; for a call with no handler of another run writing in between |
| `BootstrapRun.CalmCallsSucceed` | scripts/fetchnow_release/bootstrap_db.py:184-563 | with calls that all go through and an Alembic that leaves the target, every first bootstrap of an empty database succeeds, and every resumed one at its points |
| `BootstrapRun.EveryCallIsAStep` | scripts/fetchnow_release/bootstrap_db.py:184-613 | each step of that code is a step of the protocol's histories, so all their guarantees apply |
| `ConfigContract.NormalizeRuntimeValues` | scripts/fetchnow_release/config_contract.py:141-169 | the loop gives the normal form of every key, or fails where one has none or the keys differ |
| `ConfigContract.NormalFormIsPlainAndFixed` | scripts/fetchnow_release/config_contract.py:110-138 | a normal form is plain text and its own normal form |
| `ConfigContract.BooleanIsReviewed` | scripts/fetchnow_release/config_contract.py:110-116 | a switch is accepted exactly when, the spaces at its ends off, it spells true or false in any mix of small and capital letters, and that word is its normal form |
| `ConfigContract.IntegerIsReviewed` | scripts/fetchnow_release/config_contract.py:119-138 | an integer is accepted exactly when, the spaces at its ends off, it is the decimal rendering of a number from the reviewed minimum to the reviewed maximum, and that is its normal form |
| `ConfigContract.NormalizeTwice` | scripts/fetchnow_release/config_contract.py:141-169 | normalising is idempotent |
| `ConfigContract.SameFingerprintIffNothingChanged` | scripts/fetchnow_release/config_contract.py:212-225 | fingerprints agree exactly when no key changed |
| `ConfigGate.EnvironmentDeltas` | scripts/fetchnow_release/config_rollout.py:237-251 | the deltas of every application service on the rendered keys, or a failure where a service is missing |
| `ConfigGate.PartialEqualsFull` | scripts/fetchnow_release/config_rollout.py:254-271 | if the gate passes, the services not recreated already ran with the target, recreating the affected ones makes all agree, and no key outside the reviewed change moves |
| `ConfigGate.EnoughIffCovering` | scripts/fetchnow_release/config_contract.py:323-334 | a choice of services to recreate always suffices exactly when it covers every service with a delta |
| `ConfigGate.GateOnUniformValues` | scripts/fetchnow_release/config_rollout.py:254-271 | on uniformly running values the gate passes exactly when the changed keys are those whose text differs and nothing unreviewed differs |
| `ConfigGate.TargetReadBack` | scripts/fetchnow_release/config_rollout.py:607-610 | after a rollout whose gate passed, the values read back are the target's |
| `ConfigGate.CarriedValuesAreUnique` | scripts/fetchnow_release/config_rollout.py:218-234 | the running services determine the values |
| `ConfigGate.AllowlistIsReviewed` | scripts/fetchnow_release/config_contract.py:29-44 | every receiver in the allowlist is an application service |
| `ConfigRollout.ObserveKey` | scripts/fetchnow_release/config_rollout.py:220-231 | gives the one value all receivers have, or fails exactly when there is none |
| `ConfigRollout.ActiveRuntimeValues` | scripts/fetchnow_release/config_rollout.py:218-234 | reads the values the services run with, or fails exactly when they run with no common values |
| `ConfigRollout.Transaction.Append` | scripts/fetchnow_release/config_journal.py:104-126 | appends exactly what the table allows, and only in a state that makes the phase true |
| `ConfigRollout.Transaction.ActivateTarget` | scripts/fetchnow_release/config_rollout.py:579-628 | going through means stabilising, with the target values running |
| `ConfigRollout.Transaction.Rollback` | scripts/fetchnow_release/config_rollout.py:635-708 | its result is exactly whether each call of the rollback, by its place, went through (the result may be torn), with the previous values read back; otherwise the first failing call is the one the handler records |
| `ConfigRollout.Transaction.HandleTargetFailure` | scripts/fetchnow_release/config_rollout.py:629-738 | rolled back exactly when the rollback began and each of its calls held; rollback_failed exactly when one failed and both records were written; anything else is raised into the outer handler |
| `ConfigRollout.Transaction.HandleFailure` | scripts/fetchnow_release/config_rollout.py:774-814 | records failed exactly for a rollout that never left planned and whose two records were written; anything else is left as it is |
| `ConfigRollout.Transaction.Run` | scripts/fetchnow_release/config_rollout.py:566-814 | whatever fails: it ends committed exactly when activation held and the result was written, returning or not; the target is persisted exactly when that call returned and the next one wrote; success is exactly both calls returning; rolled back exactly when activation failed once logged and every rollback call held; rollback_failed exactly when one failed and was recorded; failed exactly when it stopped at planned and that was recorded, with no service recreated |
| `ConfigRollout.CommittedButNotPersisted` | scripts/fetchnow_release/config_rollout.py:739-814 | two calls, either of which failing leaves every rollout committed with the previous values persisted, and the next rollout refusing on drift |
| `ConfigRollout.DriftHappens` | scripts/fetchnow_release/config_rollout.py:513-519 | the concrete case, with the values of one switch |
| `ConfigRollout.DriftRefuses` | scripts/fetchnow_release/config_rollout.py:513-519 | the check refuses exactly when the services do not run with what is persisted |
| `ConfigRollout.RunsWithOne` | scripts/fetchnow_release/config_rollout.py:218-234 | the services run with one set of values at most |
| `EnvFile.LoadEnvFile` | scripts/fetchnow_release/env_file.py:28-47 | the parsing loop gives the collected assignments, or fails on the first invalid or duplicate line |
| `EnvFile.JoinSplit` | scripts/fetchnow_release/env_file.py:29-31 | splitting a text into lines loses nothing |
| `EnvFile.LoadByLines` | scripts/fetchnow_release/env_file.py:28-47 | loading a text is loading the editor's lines one by one, however the parser breaks each further |
| `EnvEdit.SkippedIff` | scripts/fetchnow_release/env_file.py:32-34 | a line is passed over exactly when it is blank or its first character that is no space is a hash sign |
| `EnvEdit.UnquotedIff` | scripts/fetchnow_release/env_file.py:43-45 | a value changes exactly when it is a text between two equal quotes, and then to that text |
| `EnvEdit.QuotedLineParses` | scripts/fetchnow_release/env_file.py:37-46 | any text between quotes is read back as it is, whatever it contains |
| `EnvEdit.RollbackText` | scripts/fetchnow_release/config_rollout.py:293-312 | the loop over the previous values applies each edit in turn, or stops at a duplicate |
| `EnvEdit.EditThenLoad` | scripts/fetchnow_release/config_rollout.py:296-307 | loading the edited text is the old map with one key overwritten exactly when the key is new or stands alone on a line that begins with it and an equals sign |
| `EnvEdit.EditTouchesOneLine` | scripts/fetchnow_release/config_rollout.py:296-307 | an edit rewrites one line or adds one; every other line is unchanged |
| `EnvRollback.RollbackThenLoad` | scripts/fetchnow_release/config_rollout.py:293-312 | for the whole list of previous values: the edits always succeed and leave every other line as it was; what is loaded back is the old map overwritten with them exactly when each line that begins with a restored key assigns restored keys only and every other line none |
| `EnvEdit.IndentedAssignmentBlocksRollback` | scripts/fetchnow_release/config_rollout.py:296-307 | the failing case: an indented assignment is parsed but not edited, and the written file does not load as the previous value |
| `NpmVia.TargetReachesAdvisory` | scripts/dependency_audit.py:879-923 | the recursive search terminates and reports what the reference definition reports |
| `NpmVia.AdvisoryIsFirstKnown` | scripts/dependency_audit.py:851-869 | an advisory goes by the GHSA identifier in its url, failing that by its number, and failing both by its title |
| `NpmVia.AcceptedIffEveryChainIsGood` | scripts/dependency_audit.py:879-923 | a target is accepted exactly when every chain of references from it ends in a complete entry it has not met before |
| `NpmVia.ReachesEvidence` | scripts/dependency_audit.py:879-923 | an accepted target reaches an entry with an advisory of its own |
| `NpmVia.AllAcceptedIffSound` | scripts/dependency_audit.py:1003-1016 | every package is accepted exactly when all entries are complete and the references closed and acyclic |
| `NpmReport.ParsePackage` | scripts/dependency_audit.py:972-1046 | a package is parsed exactly when accepted, and then yields exactly its own advisories |
| `NpmReport.SoundHasEvidence` | scripts/dependency_audit.py:1048-1049 | a sound non-empty report has a package with an advisory |
| `NpmReport.ParseNpmAudit` | scripts/dependency_audit.py:926-1058 | accepted exactly when counts agree and the report is sound; the findings are exactly the advisories with their owners, and a non-empty report has one, so the last guard never fires |
| `BoundedRun.ReadStreamBounded` | scripts/fetchnow_release/bounded_subprocess.py:209-240 | one reader keeps the allowed prefix, reports the limit exactly when passed, and at end of stream has everything |
| `BoundedRun.NextInv` | scripts/fetchnow_release/bounded_subprocess.py:209-432 | a step of either reader or of the main loop keeps what is known of all three |
| `BoundedRun.ReturnIsComplete` | scripts/fetchnow_release/bounded_subprocess.py:400-432 | over every interleaving a normal return saw both ends of stream: the output is complete and within its limits |
| `BoundedRun.SinkIsPrefix` | scripts/fetchnow_release/bounded_subprocess.py:209-240 | in every state each sink is the prefix of length min(limit, read) and the box holds the limit error exactly when more was read |
| `BoundedRun.LimitErrorIsTrue` | scripts/fetchnow_release/bounded_subprocess.py:421-425 | a limit error is raised only over a longer stream, and over a longer stream the run never returns |
| `BoundedRun.RaisedHasReason` | scripts/fetchnow_release/bounded_subprocess.py:411-432 | an exception names what happened, and nothing that goes before it did; a run that returned was neither cancelled nor late nor cleaned up |
| `BoundedRun.Finishes` | scripts/fetchnow_release/bounded_subprocess.py:318-432 | from every state of every run the main thread can finish, and does so with the first thing there is to blame, or with both sinks if there is none and both readers saw the end |
| `BoundedRun.CanReturn` | scripts/fetchnow_release/bounded_subprocess.py:243-432 | from every state of every run in which nothing has gone wrong, over streams within their limits, the run can go on to return all there was on both |
| `BoundedRun.StoppedRaises` | scripts/fetchnow_release/bounded_subprocess.py:322-336 | a run cancelled or out of time while it watches the command ends with that exception |

## Left out

- Revision heads are sets: the sorting of the head tuple and of error messages.
- Parsing of migration files, validation of identifiers, hashes and time stamps, file modes, symlinks and fsync: parsed
  values are taken as given.
- Python's recursion limit in the cycle search, and the text of messages and errors.
- Docker, Compose, psql, pg_dump, git, HTTP probes and Alembic themselves: calls with an arbitrary outcome.
- Alembic ends with the process that started it: one step that leaves any heads.
- An operator restoring the database by hand, and writers of `current.json` other than migration and recovery: the
  application rollout orchestrator is not part of this model (its commits appear in `CurrentState` alone).
- Unresolved deployments, bootstraps and config rollouts as blockers of a migration: they are among the reasons for which the
  gates may refuse.
- MigrationRecovery.PruneTurnGood: in the protocol a prune may pick any backups at all, which covers every choice that
  `PruneRun` makes; attestations and manifests are not modelled there.
- In the migration protocol an append and a result are one step each: nobody but the run that made a journal writes
  its events and its result, so nothing can come between its check and its write.
- BootstrapProtocol.FindUnresolvedBootstraps: the scan of the journal directories before a choice is one step, though a
  handler may write while it goes on.
- MigrationRecovery.ExpectedDigestNeverMatches: that a compact and an indented rendering of a document differ is an
  assumption, two constructors of `Digest`.
- BootstrapTheorems.AlembicStartsOnEmpty: an inspection that ends without an error or doubt reports what the database
  holds; the classification of catalog objects is not modelled, nor is a database changed by anything but Alembic.
- BootstrapRun.Bootstrap.RunBootstrapDb: the class is one run by itself, so what it says of the stored result is for a
  call with no handler of another run writing in between; `BootstrapOverlap.SuccessStoredIff` is for all of them. When
  it succeeds is stated over journals whose logs are paths; `BootstrapOverlap.LogIsPathExactly` says when they are.
- BootstrapRun.Bootstrap.CloseKnown: the same.
- BootstrapRun.Bootstrap.CreateSchema: the same.
- Exceptions outside the lists that the outer handlers name end a process like a crash.
- PruneRun.SelectPruneCandidates: a verify result other than `passed`, and the count and order of the decisions.
- PruneRun.BackupRoot.PruneBackups: the manifest and path checks before a deletion are its two outcomes, removed or
  refused.
- ConfigRollout.Transaction.Run: before its plan is written the rollout only reads and refuses; the initialisation
  of the persisted state and the no-change exit are left out. Container ids are not compared.
- EnvFile.LoadEnvFile: reading a file has already turned carriage returns into newlines; the file mode checks are left
  out.
- NpmReport.ParseNpmAudit: aliases, severities and the metadata checks; a lock file's versions are given.
- BoundedRun.ReturnIsComplete: the bytes of a stream are those written before the last holder closes the pipe; process
  groups, signals and the deadline budget are left out.
- Deployment journals beyond their phase table, their resolutions and cleanup; applying exceptions to audit findings.
- `compose_contract_check.py`, `preflight.py`, the CLI, redaction, password policy, archives: flat checks or plumbing.
