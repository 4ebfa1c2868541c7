# Packit Service: a verified model of its data layer and dispatch

Packit Service turns forge and build-system events into Celery tasks.  Its state is a PostgreSQL
database that many workers change at once.  This project models the parts of it where several
functions, or several workers, have to agree, and proves that they do, or exactly when they do.

| file | what it models |
|---|---|
| `PipelineCreation.dfy` | the create methods of all groups as one transition system over committed rows, row locks and workers |
| `CreationInvariants.dfy` | what holds in every one of its runs: ids are drawn once, rows are there, locks are short |
| `GroupCoherence.dfy` | pipelines of one Copr, Koji or test-run group agree in event, SRPM and package |
| `GuardedLinks.dfy`, `CreateLinearizability.dfy`, `CreationLimits.dfy` | links of the guarded Copr and test-run creators stay, their calls behave as if made one after another; where this ends |
| `GroupCreation.dfy`, `CloneColumns.dfy` | the same two create methods statement by statement; what the clones of all creators are made of |
| `RetentionSchema.dfy`, `RetentionSweep.dfy`, `RetentionColumns.dfy`, `RetentionTheorems.dfy` | the retention sweep over the tables and their foreign keys, and what it leaves |
| `CoprGroupMigration.dfy`, `CommitShaMigration.dfy` | two data migrations and their downgrades |
| `NewestRun.dfy` | whether a newer attempt exists |
| `EventWire.dfy`, `CancelCutoff.dfy` | the way of an event to a worker, and which builds a new event cancels |
| `MergedRuns.dfy`, `MostRecent.dfy` | grouping of pipelines by SRPM, and the latest attempt per target |
| `SidetagLock.dfy`, `ScanLock.dfy` | two lock protocols |
| `JobMatching.dfy`, `JobProcessing.dfy` | from an event to jobs, handlers and tasks |
| `Allowlist.dfy`, `LineBreaker.dfy` | the walk up a namespace path, and the breaking of long lines |
| `Options.dfy`, `Listings.dfy`, `Strings.dfy` | optional values, results of queries, string methods |

The database is taken as read committed: a statement sees what is committed, an update or a
`SELECT ... FOR UPDATE` waits for the row lock and holds it to the end of its transaction, unique
and foreign keys are checked per statement, a transaction commits as a whole.  The order in which
a query returns rows is arbitrary.

Some results about the create methods are about runs in which calls of certain kinds are not
started on a clone that the call which made it has yet to fill (`PipelineCreation.Disciplined`).
Each of them names the kinds that it needs, and the need is shown:

- test-run links, the only pipeline of a Copr call and the absence of deadlock need none;
- Copr links and results need it of Copr calls (`CreationLimits.StartingOnAHalfDoneCloneLosesTheGroup`);
- coherence needs it of Copr and Koji calls (`CreationLimits.StartingOnAHalfDoneCloneMixesAGroup`);
- the order of guarded calls needs it of Copr and test-run calls
  (`CreationLimits.CoprStartSpoilsTheOrder`, `CreationLimits.TestRunStartsSpoilTheOrder`).

Where the documentation of the code and the code disagree, the code is modelled.  Broken lines can
exceed the documented maximum (`LineBreaker.MaximumCanBeExceeded`); they respect it exactly when
`LineBreaker.MeetsMaximum` holds of the lengths of the parts.  A handler need not get its jobs in
the order of the configuration (`JobMatching.OrderIsNotAlwaysKept`); it does exactly when the jobs
it gets explicitly stand behind those it gets because of their trigger
(`JobMatching.HandlerJobsInOrderExactlyWhen`).  The guard in `has_newer_run` for a target without
a group comes too late, so exactly such a target raises (`NewestRun.MissingGroupRaises`).

## Model

| member | source | states |
|---|---|---|
| `GroupCoherence.GroupsStayCoherent` | packit_service/models.py:2368-2370 | pipelines that share a Copr, Koji or test-run group keep the same event, SRPM and package in every interleaving of all create methods, failing calls included, in which no Copr or Koji call is started on a clone whose own call has yet to fill it; so reading the first run of a group is well defined |
| `GroupCoherence.TestRunGroupsStayCoherent` | packit_service/models.py:3704-3727 | for test-run groups alone this holds in every interleaving, wherever calls are started |
| `GroupCoherence.StepKeeps` | packit_service/models.py:2686-2703 | every single statement of every create method, other than such a start, keeps the invariant behind coherence, in which each Copr or Koji group has one home that no link may leave |
| `GroupCoherence.BeginNewRunKeeps` | packit_service/models.py:4150-4186 | the creators that make their own pipeline link it only to the record they have just drawn |
| `GroupCoherence.CloneKeeps` | packit_service/models.py:2092-2103 | a published clone has no link yet, so it cannot disagree with the rows of any group, and the test-run clone has the fields of the source whose groups it takes over |
| `GroupCoherence.FillKeeps` | packit_service/models.py:4653-4667 | links copied into a clone agree with the source they are read from again, which has not changed in the meantime |
| `GuardedLinks.GuardedLinksAreNeverOverwritten` | packit_service/models.py:2151-2155 | no test-run link of any pipeline is replaced or cleared later in any run of all creators, and no Copr link in any run in which no Copr call is started on an unfilled clone |
| `GuardedLinks.CallsReturnDistinctPipelines` | packit_service/models.py:2137-2176 | two calls of one guarded kind never return the same pipeline, so at most one takes the original: test-run calls in any run, Copr calls in any run in which none is started on an unfilled clone |
| `GuardedLinks.CoprCallReturnsTheOnlyPipeline` | packit_service/models.py:2178-2194 | in every run, at the moment a Copr call returns, exactly the returned pipeline is linked to its new group |
| `CreateLinearizability.CreatesAreLinearizable` | packit_service/models.py:2105-2194 | when Copr and test-run calls alone run, none started on an unfilled clone, and all are over, the tables, whatever they were, are those of the same calls one after another; each call is in that order once, draws an id that is free at its place, and returned what it returns there |
| `CreateLinearizability.CallsKeepRealTimeOrder` | packit_service/models.py:2105-2194 | a call that was over before another one began comes before it in that order |
| `CreateLinearizability.TestRunCloneIsLinear` | packit_service/models.py:3704-3727 | the test-run clone becomes visible complete, in one step that is the whole call |
| `CreationLimits.StartingOnAHalfDoneCloneLosesTheGroup` | packit_service/models.py:2097-2103 | Copr links and results need the condition on Copr starts: in every state, a Copr call started on a Copr clone that is still without links can return it, and the clone's own call then overwrites that link and returns it too |
| `CreationLimits.CoprStartSpoilsTheOrder` | packit_service/models.py:2097-2103 | the order of calls needs it for Copr calls: on every quiet database with a pipeline that has a Copr group, one such start, all else disciplined, leaves an outcome that no sequence of operations explains |
| `CreationLimits.TestRunStartsSpoilTheOrder` | packit_service/models.py:3704-3727 | and for test-run calls: with an SRPM for all pipelines of the event, two such starts on an unfilled Copr clone leave tables that no sequence of guarded calls leaves, although no call fails |
| `CreationLimits.StartingOnAHalfDoneCloneMixesAGroup` | packit_service/models.py:2686-2703 | coherence needs the condition for Copr and for Koji calls: on every quiet database with a pipeline that has an SRPM and a group of the other kind, one call started on an unfilled clone, all else disciplined, can end in two pipelines of one group with different SRPMs |
| `CreationLimits.KojiCallsCanLoseAGroup` | packit_service/models.py:2686-2703 | two Koji calls on one pipeline can both return it although one group is linked nowhere |
| `CreationLimits.UndisturbedCallsKeepTheirGroup` | packit_service/models.py:2686-2703 | an unguarded call links the pipeline it returns to its own group, for good if at its end no other call of its kind may yet assign that pipeline, nobody fills it, and no later call of the kind is started on it |
| `CreationLimits.CallsUnderWayTakeTheLink` | packit_service/models.py:2686-2703 | and otherwise not: an unguarded call that has yet to read or assign an unlocked pipeline can take its link over |
| `CreationInvariants.LockedRowsAreLeftAlone` | packit_service/models.py:3701-3716 | in every run of all creators, while a call holds the lock of a pipeline nobody else writes the pipeline or takes the lock |
| `CreationLimits.CallsNeverDeadlock` | packit_service/models.py:2158-2163 | in every run of all creators, as long as a call is not over, some worker can take its next statement; only a call about to assign to a missing pipeline raises instead |
| `CloneColumns.ReturnedCloneIsMadeFromItsPipeline` | packit_service/models.py:2088-2103 | in every run of all creators a clone that a call has returned has the event of the pipeline it was called for, and its package unless it is a Copr call that was given one or whose model knew one, in this order |
| `CloneColumns.ReadBackTakes` | packit_service/models.py:5137-5145 | what each creator copies: the SRPM unless it is Bodhi, the Copr group for Log Detective and images, the Koji group for Log Detective, and its own new group |
| `CloneColumns.TestRunCloneTakes` | packit_service/models.py:3714-3727 | the clone of a test-run call has event, package, SRPM, Copr and Koji group of the locked pipeline and the call's own group, and no other link |
| `CloneColumns.NewRunMakesItsPipeline` | packit_service/models.py:3422-3440 | a creator that makes its own pipeline leaves it with its event, its package and the new record alone |
| `GroupCreation.Database.ClonePipeline` | packit_service/models.py:2060-2103 | the clone has the event and SRPM of its source, the package of the caller, else of the model held, else of the source, and only the new group |
| `GroupCreation.Database.CreateCoprGroup` | packit_service/models.py:2105-2194 | column by column, also when the first read is stale: a pipeline without a Copr group is linked, any other one is cloned with the package given, held or its own, a missing one leaves the group alone; and this is the reference call of the concurrent system |
| `GroupCreation.Database.CreateTestRunGroup` | packit_service/models.py:3688-3732 | the same for the test-run call, whose clone has event, package, SRPM, Copr and Koji group of its source and the new group |
| `RetentionSweep.Database.DeleteOldData` | packit_service/worker/database.py:195-466 | the whole series of deletes commits exactly under the commit condition; then exactly the pipelines younger than the limit or undated stay, with the other survivors, else the old tables, and the foreign keys hold |
| `RetentionSweep.Transaction.SweepCopr` | packit_service/worker/database.py:245-272 | associations and scans of orphaned Copr targets go before the targets, so no foreign key fails |
| `RetentionSweep.Transaction.SweepTests` | packit_service/worker/database.py:298-329 | the same for test-run targets and both association tables |
| `RetentionSweep.Transaction.SweepObjects` | packit_service/worker/database.py:430-449 | event objects go unless an event refers to them; only the source-git pairs can make this fail, exactly when they refer to one that goes |
| `RetentionColumns.PipelineSurvivesExactlyWhen` | packit_service/worker/database.py:214-218 | a pipeline stays if and only if it is younger than the limit or has no datetime |
| `RetentionColumns.EventSurvivesExactlyWhen` | packit_service/worker/database.py:220-228 | an event stays if and only if a staying pipeline belongs to it |
| `RetentionColumns.ItemSurvivesExactlyWhen` | packit_service/worker/database.py:230-243 | an SRPM or image stays if and only if a staying pipeline points to it |
| `RetentionColumns.TargetSurvivesExactlyWhen` | packit_service/worker/database.py:245-428 | a target stays if and only if its group is null or a staying pipeline points to its group |
| `RetentionColumns.GroupSurvivesExactlyWhen` | packit_service/worker/database.py:245-428 | a group stays if and only if a staying pipeline points to it, except sync-release and Log Detective groups, which all stay |
| `RetentionColumns.DependentsSurviveExactlyWhen` | packit_service/worker/database.py:245-272 | scans, Log Detective runs and downstream pull requests of syncs stay if and only if all their targets do |
| `RetentionColumns.ObjectSurvivesExactlyWhen` | packit_service/worker/database.py:430-449 | a pull request, branch, release or issue stays if and only if a staying event is about it; tags and Anitya projects all stay |
| `RetentionColumns.ProjectSurvivesExactlyWhen` | packit_service/worker/database.py:451-464 | a git project stays if and only if one of the six referring tables refers to it or has a null project |
| `RetentionColumns.SweepCommitsExactlyWhen` | packit_service/worker/database.py:214-464 | the sweep commits if and only if both ends of all source-git pairs stay and no tag or Anitya project is in a git project that goes |
| `RetentionTheorems.CommitsWhenSurvivorsAreSound` | packit_service/worker/database.py:214-464 | the commit condition holds if and only if every foreign key of the surviving rows holds |
| `RetentionTheorems.EventsOfKeptPipelinesSurvive` | packit_service/worker/database.py:220-228 | a kept pipeline keeps its event, the event's object and that object's git project |
| `RetentionTheorems.BuildsOfKeptPipelinesSurvive` | packit_service/worker/database.py:230-428 | a kept pipeline keeps its SRPM, image, groups and all targets of these groups |
| `RetentionTheorems.AssociationsSurviveWithBothEnds` | packit_service/worker/database.py:245-329 | a test-Copr or test-Koji association survives if and only if both its ends do |
| `RetentionTheorems.SurvivorsAreHeld` | packit_service/worker/database.py:385-464 | what survives in the pruned tables is held by a surviving pipeline, event or project reference, or has a null group |
| `RetentionTheorems.SweepIsAFixpoint` | packit_service/worker/database.py:214-464 | the same sweep again commits and deletes nothing |
| `RetentionTheorems.SweepsCompose` | packit_service/worker/database.py:214-464 | after a milder sweep the stricter one decides and leaves the same as alone, including NOT IN with a null project id |
| `RetentionTheorems.MilderSweepLeavesNoTrace` | packit_service/worker/database.py:214-464 | the milder sweep makes no difference if and only if the stricter one commits, or the milder one does not commit, or every row stands already so that it has nothing to delete |
| `RetentionTheorems.MilderSweepCanLeaveATrace` | packit_service/worker/database.py:430-449 | a concrete database with a source-git pair where the milder sweep does show |
| `RetentionTheorems.KojiTagBlocksTheSweep` | packit_service/worker/database.py:451-463 | a Koji tag in an otherwise unreferenced git project blocks the sweep at every age |
| `CoprGroupMigration.Database.CollectByBuild` | alembic/versions/9fe0e970880f_add_copr_build_groups.py:382-384 | targets are collected by build id in order of appearance, a null id being a build like any other |
| `CoprGroupMigration.Database.Upgrade` | alembic/versions/9fe0e970880f_add_copr_build_groups.py:350-408 | two targets share a group if and only if they share a build id, each pipeline gets the group of its target, and every group has a target |
| `CoprGroupMigration.Database.DealOut` | alembic/versions/9fe0e970880f_add_copr_build_groups.py:425-436 | the n-th run of a group gets its n-th target, targets beyond the runs get new pipelines, and nothing else changes |
| `CoprGroupMigration.Database.Downgrade` | alembic/versions/9fe0e970880f_add_copr_build_groups.py:411-446 | all groups are dealt out: every grouped target is pointed to by exactly one pipeline, and ungrouped pipelines by none |
| `CoprGroupMigration.RoundTripKeepsBuilds` | alembic/versions/9fe0e970880f_add_copr_build_groups.py:382-436 | after upgrade and downgrade each target has exactly one pipeline, and an old pipeline with a target has one of its original build |
| `CoprGroupMigration.RoundTripKeepsEveryLinkExactlyWhen` | alembic/versions/9fe0e970880f_add_copr_build_groups.py:424-436 | no pipeline loses its link if and only if no build had more pipelines than targets |
| `CoprGroupMigration.SharedTargetIsLost` | alembic/versions/9fe0e970880f_add_copr_build_groups.py:424-436 | two pipelines on the only target of a build: one of them comes back without a target |
| `CommitShaMigration.Database.Upgrade` | alembic/versions/af00a7f19025_move_commit_sha_to_project_events.py:168-253 | all rows of the five queries are written to the events in the order found, the last write of an event wins, and the item columns go |
| `CommitShaMigration.Database.Restore` | alembic/versions/af00a7f19025_move_commit_sha_to_project_events.py:296-316 | the rows of one query are written to the items of its kind, the last write wins |
| `CommitShaMigration.Database.Downgrade` | alembic/versions/af00a7f19025_move_commit_sha_to_project_events.py:256-377 | the five kinds are restored one after another from the events, and the event column goes |
| `CommitShaMigration.RowsOfTheQueries` | alembic/versions/af00a7f19025_move_commit_sha_to_project_events.py:184-241 | a Koji, Copr or test-run target is joined with the pipelines of its group, an SRPM or image with those that point to it |
| `CommitShaMigration.EventHasAShaItReaches` | alembic/versions/af00a7f19025_move_commit_sha_to_project_events.py:184-241 | after the upgrade an event has the commit_sha of some item that is so joined with one of its pipelines, or null if there is none |
| `CommitShaMigration.RoundTripRestoresAgreeingItems` | alembic/versions/af00a7f19025_move_commit_sha_to_project_events.py:184-372 | when the items of each event agree, the round trip restores every item that is joined with a pipeline of some event, in every order of rows; all others become null |
| `CommitShaMigration.RoundTripRestoresExactlyAgreeingItems` | alembic/versions/af00a7f19025_move_commit_sha_to_project_events.py:291-372 | it restores them in all orders if and only if they agree |
| `NewestRun.NewerExactlyWhenLaterInItsClass` | packit_service/models.py:2377-2406 | with coherent groups the query says yes if and only if the other target has the same event, target and identifier and a later last pipeline |
| `NewestRun.NewerIsAStrictOrder` | packit_service/models.py:2377-2406 | being newer is irreflexive, asymmetric and transitive |
| `NewestRun.NewerRunsEnd` | packit_service/models.py:2389-2406 | following newer runs ends at a target that has no newer one, even without coherent groups |
| `NewestRun.EveryClassCanReport` | packit_service/models.py:3919-3947 | with coherent groups, which the create methods keep for Copr, Koji and test runs, each class of attempts has one without a newer run, itself newer than the target it was asked for or equal to it |
| `NewestRun.MissingGroupRaises` | packit_service/models.py:2385-2389 | asking the event before the guard differs from asking the guard first exactly for a target without a group, where the call raises instead of saying no |
| `NewestRun.HasNewerRunExactlyWhen` | packit_service/models.py:2377-2406 | for all tables, the answer is yes if and only if the group has a dated pipeline, its first pipeline an event, and a target of the same name and identifier a pipeline of an equal event dated after all of the group |
| `NewestRun.HasNewerRunMeansALaterAttempt` | packit_service/models.py:2377-2406 | with coherent groups, if and only if an attempt at the same event, name and identifier has a later last pipeline |
| `NewestRun.NewerIsNotTransitiveWithoutCoherence` | packit_service/models.py:353-357 | a concrete database with a mixed group in which being newer is not transitive |
| `CancelCutoff.NewBuildsAreSpared` | packit_service/models.py:2201-2248 | in any sequence of actions after the cutoff was read, a build is selected only if a pipeline of its group existed when it was read |
| `CancelCutoff.SelectedExactlyWhen` | packit_service/models.py:2228-2248 | a build is selected if and only if it waits, has the identifier and a given name, and a visible pipeline of the project object has its group and is not dated after a given cutoff |
| `CancelCutoff.CancelledExactlyWhen` | packit_service/worker/helpers/build/copr_build.py:1025-1049 | the helper adds that there must be a project object and a cutoff, and takes the names from the override |
| `CancelCutoff.LatestDatetimeExactly` | packit_service/models.py:1951-1968 | the cutoff query has one answer, the latest datetime of a visible pipeline of the project object |
| `CancelCutoff.OldBuildsAreCancelled` | packit_service/models.py:1951-1968 | every waiting build with the right identifier and target that hangs on a pipeline visible at the cutoff is selected |
| `CancelCutoff.NoCutoffCancelsNothing` | packit_service/worker/helpers/build/copr_build.py:1025-1049 | without pipelines there is no cutoff, and the helper then cancels nothing, although the query would not filter |
| `CancelCutoff.RunsMoveForward` | packit_service/worker/jobs.py:820-824 | rows keep their datetimes and events, and pipelines inserted later are stamped after the clock of the reading |
| `EventWire.GetEventDict` | packit_service/events/event.py:129-161 | entry by entry what is sent: converted times, lists for the override sets, lazy attributes left out, everything else unchanged |
| `EventWire.GetDataDict` | packit_service/events/event_data.py:324-343 | the same for event data, with the three lazy entries removed |
| `EventWire.EventArrives` | packit_service/events/event_data.py:79-128 | the cutoff arrives to the microsecond unless it is the epoch, the acceptance time as its second, the overrides as the same sets in any list order, and actor and pull request under their old or private names first |
| `EventWire.SendingOnKeepsTheData` | packit_service/events/event_data.py:324-343 | sending event data on and reading it again changes nothing if and only if the acceptance time is a whole second and neither time is the epoch |
| `EventWire.ReadingMakesTimesThatTravel` | packit_service/events/event_data.py:93-97 | whatever was read from an event satisfies that condition, so any number of further tasks see the same data |
| `MergedRuns.ListingPartitionsThePipelines` | packit_service/models.py:2005-2018 | each pipeline is in exactly one run of the list, and two share one if and only if they share an SRPM |
| `MergedRuns.RunsAreFoundByTheirMergedId` | packit_service/models.py:2020-2034 | a listed run is found again under its id with its members up to 100 ids later, all of them if and only if its last id is |
| `MergedRuns.WindowShowsItsFirstGroup` | packit_service/models.py:2020-2034 | for any id the answer is the group of the smallest id in the window, cut to the window, and none if the window is empty |
| `MergedRuns.MergedRunExactly` | packit_service/models.py:2020-2034 | the run found for an id is that of the smallest id among the 101 from it on, with the pipelines there that share its SRPM |
| `MergedRuns.ListingIsNewestFirst` | packit_service/models.py:2005-2018 | the list goes down strictly by the smallest id of each run |
| `MergedRuns.ListingExists` | packit_service/models.py:2005-2018 | every table has such a list |
| `MergedRuns.MergedRunExists` | packit_service/models.py:2020-2034 | and every id an answer |
| `MergedRuns.DistantPipelinesAreCutOff` | packit_service/models.py:2024-2024 | two pipelines of one SRPM 101 ids apart come back as one |
| `MostRecent.GetMostRecentTargets` | packit_service/models.py:203-212 | the loop over the dict computes the fold, and gives up where comparing with a null time raises |
| `MostRecent.LoopSelects` | packit_service/models.py:183-212 | it raises if and only if two attempts at a key include one without a time; else it lists, by first occurrence of the keys, the first of the latest attempts |
| `MostRecent.OneSelection` | packit_service/models.py:192-201 | that description has only one solution |
| `MostRecent.SelectionIsIncremental` | packit_service/models.py:203-212 | selecting from old and new attempts is selecting from the old selection and the new ones, errors included |
| `MostRecent.NamesFollowTheLastAttempt` | packit_service/models.py:251-264 | a key is named if and only if the attempt that counts for it has one of the statuses |
| `SidetagLock.BodiesOfAGroupNeverOverlap` | packit_service/models.py:4735-4753 | two workers are never both between the row lock of a group and the end of their transaction |
| `SidetagLock.SidetagsAreUnique` | packit_service/models.py:4744-4751 | at most one sidetag per group and target, counting rows that are not committed yet |
| `SidetagLock.CallersShareTheSidetag` | packit_service/worker/helpers/sidetag.py:145-177 | all callers for a group and target return the same row, with a name |
| `SidetagLock.KojiHasOneSidetagPerPlace` | packit_service/worker/helpers/sidetag.py:167-176 | when nobody is about to commit, Koji has at most one live sidetag per group and target beside those whose creator rolled back |
| `SidetagLock.BodyLeavesWithALiveSidetag` | packit_service/worker/helpers/sidetag.py:166-176 | the body leaves with the sidetag of the row if that is live in Koji and else with a new one, which is live |
| `SidetagLock.CallGetsASidetag` | packit_service/models.py:4735-4753 | a call with nobody else on its group runs through and returns the row of its place with a live sidetag |
| `ScanLock.BodyIsEnteredAtMostOnce` | packit_service/models.py:2624-2660 | over all interleavings and failures the body is entered at most once per build target, and two bodies differ in their target |
| `ScanLock.FirstCallerGetsIn` | packit_service/models.py:2624-2660 | the first caller for a build without a scan enters the body, with the committed row; its end fills the row, its failure leaves it |
| `ScanLock.LaterCallersAreRefused` | packit_service/models.py:2646-2652 | a caller for a build with a scan, or gone, is refused and changes nothing |
| `ScanLock.FailedBodyIsNotRetried` | packit_service/models.py:2646-2652 | a failed body leaves the committed row behind, and nobody enters for that target later |
| `JobMatching.CheckPagurePrComment` | packit_service/worker/jobs.py:961-988 | the loop over the job views with its duplicate and koji-tag checks computes the first of each class |
| `JobMatching.CheckIssueComment` | packit_service/worker/jobs.py:989-1006 | the same for issue comments |
| `JobMatching.CheckKojiTagBuild` | packit_service/worker/jobs.py:1007-1022 | the made-up job is for the first package with the downstream name |
| `JobMatching.GetJobsMatchingEvent` | packit_service/worker/jobs.py:1024-1072 | trigger-matched jobs, then explicit ones, then the package filter |
| `JobMatching.MatchedIsASetInConfigOrder` | packit_service/worker/jobs.py:1034-1061 | jobs matched by trigger are pairwise different, in the order of the configuration, and exactly those that satisfy the condition |
| `JobMatching.ExplicitPicksRepresentatives` | packit_service/worker/jobs.py:939-1006 | exactly the first koji_build job of each class equal up to the trigger is kept, every other eligible job too, and no class is lost under the koji-tag filter |
| `JobMatching.CommentPicks` | packit_service/worker/jobs.py:961-1006 | column by column, which views a pull request or issue comment picks: Koji builds and Bodhi updates for commits and Koji builds, the first of equal builds, sidetag jobs alone for koji-tag, and release syncs in pull requests |
| `JobMatching.TagJobIsForTheFirstPackage` | packit_service/worker/jobs.py:1007-1022 | a tagged build makes one job, for the first package whose downstream name it has, or none |
| `JobMatching.PackageFilterKeeps` | packit_service/worker/jobs.py:1065-1070 | the filter keeps the jobs of the package, all of them without a package |
| `JobMatching.ExplicitAddsNoDuplicates` | packit_service/worker/jobs.py:1063-1063 | on comments no job is matched both by trigger and explicitly |
| `JobMatching.GetHandlersForEvent` | packit_service/worker/jobs.py:1109-1175 | the handlers are exactly those the event and comment admit that some matching job names or requires |
| `JobMatching.HandlersAndConfigsAgree` | packit_service/worker/jobs.py:1202-1230 | a handler is chosen if and only if it is admitted and its list of jobs is not empty |
| `JobMatching.ConfigsKeepTheOrder` | packit_service/worker/jobs.py:1196-1206 | a handler's jobs come in the order in which all matching jobs come |
| `JobMatching.HandlerJobsInOrderExactlyWhen` | packit_service/worker/jobs.py:1196-1230 | for any handler, package and table, and any event but a tagged Koji build, whose job is not configured: the handler's list is in the order of the configuration if and only if the views it gets explicitly stand, perhaps as later copies, behind all those it gets because of their trigger |
| `JobMatching.HandlerJobsInOrderByPosition` | packit_service/worker/jobs.py:1063-1063 | it is in order if none of the former views is configured before one of the latter, and only then unless one of the former is configured again further down |
| `JobMatching.OrderIsNotAlwaysKept` | packit_service/worker/jobs.py:1194-1206 | the build handler gets the two koji_build jobs of a pull request comment in the wrong order, in every table |
| `JobMatching.CopiesCanKeepTheOrder` | packit_service/worker/jobs.py:1063-1063 | with a copy of the first job at the end the same list is in order although the positions are not |
| `JobProcessing.SteveJobs.CreateTasks` | packit_service/worker/jobs.py:804-867 | what one handler's turn sends, records and does to the two times of the event |
| `JobProcessing.SteveJobs.ProcessJobs` | packit_service/worker/jobs.py:770-802 | turns are taken until the allowlist refuses one, whose jobs alone are then reported |
| `JobProcessing.TasksAreSentAsCreated` | packit_service/worker/jobs.py:826-867 | of one handler's tasks exactly those that pass their checks are sent, in order, with handler, job, the turn's cutoff, and the time of acceptance or of the first status so far |
| `JobProcessing.EveryTaskCarriesItsTurn` | packit_service/worker/jobs.py:812-860 | every task of an event carries the handler and a job of its turn and the pipeline datetime that was read last, null if none was |
| `JobProcessing.SentJobsAreConfigured` | packit_service/worker/jobs.py:804-867 | what an allowed event sends goes to supported and admitted handlers, with matching jobs of the kind they run or, if they run none of them, of a kind that requires them |
| `JobProcessing.ConfiguredJobsAreSent` | packit_service/worker/jobs.py:804-867 | each such handler is sent each such job, unless its own checks fail |
| `JobProcessing.RefusedEventSendsNothing` | packit_service/worker/jobs.py:782-797 | a refused event sends nothing and reports at least one failure if and only if some handler matches |
| `JobProcessing.AllowedEventPairsResults` | packit_service/worker/jobs.py:841-860 | for an allowed event results pair one to one, in order, with the tasks sent, which are exactly the created ones |
| `JobProcessing.LateRefusalHidesWhatWasSent` | packit_service/worker/jobs.py:782-797 | with a verdict that changes between handlers, tasks already sent are missing from the results |
| `JobProcessing.AcceptanceIsTheFirstStatus` | packit_service/worker/jobs.py:837-839 | the time of acceptance is that of the first status set, and all tasks that carry one carry the same |
| `Allowlist.AllowlistTable.AddNamespace` | packit_service/models.py:3534-3568 | the entry of the namespace is changed or a new one added, so that one entry for each namespace stays one; a FAS account is only replaced by a given one |
| `Allowlist.OrderOfRowsIsIrrelevant` | packit_service/models.py:3557-3561 | with one entry for each namespace it does not matter in which order the query returns the rows |
| `Allowlist.PutSetsOneStatus` | packit_service/models.py:3557-3568 | adding an entry changes the status under its own namespace and under no other |
| `Allowlist.PutExactly` | packit_service/models.py:3557-3568 | the first row of the namespace, or a new last one, has the status and a given FAS account, else the old one; no other row changes |
| `Allowlist.PassesExactlyWhen` | packit_service/worker/allowlist.py:171-227 | a path passes if and only if no row on its way up is denied and one is approved, by hand or automatically |
| `Allowlist.DecidedExactlyWhen` | packit_service/worker/allowlist.py:171-198 | the approval walk says yes if and only if some approved row on the way has no denied one further down |
| `Allowlist.PathOfAUrl` | packit_service/worker/allowlist.py:62-76 | the path is what stands between the first two separators of the URL, with the suffix added |
| `Allowlist.UrlWithoutProtocol` | packit_service/worker/allowlist.py:62-76 | a URL has no path if and only if it does not contain the separator |
| `Allowlist.ParentCoversTheRest` | packit_service/worker/allowlist.py:187-196 | one step of the walk: what covers a path is the path itself and what covers its part before the last slash |
| `Allowlist.AllowlistTable.IsNamespaceOrParentApproved` | packit_service/worker/allowlist.py:171-198 | true if and only if the most specific entry that is not waiting is an approval |
| `Allowlist.AllowlistTable.IsNamespaceOrParentDenied` | packit_service/worker/allowlist.py:201-227 | true if and only if the path or a prefix before some slash is denied |
| `Allowlist.AllowlistTable.CheckReleasePushEvent` | packit_service/worker/allowlist.py:289-312 | allowed if and only if nothing on the way up is denied and something is approved; a missing URL and a URL without protocol raise |
| `Allowlist.AllowlistTable.CheckActorEvent` | packit_service/worker/allowlist.py:314-345 | pull requests and comments need in addition an actor who is not denied and may trigger |
| `Allowlist.DenialCoversTheSubtree` | packit_service/worker/allowlist.py:158-169 | after denying a namespace nothing below it passes, whatever is approved there |
| `Allowlist.ApprovalCoversTheSubtree` | packit_service/worker/allowlist.py:142-155 | after approving a namespace a path below it passes if and only if no other entry on its way is denied |
| `Allowlist.EntriesOnlyReachTheirSubtree` | packit_service/worker/allowlist.py:187-196 | changing an entry has no effect on paths outside its subtree |
| `Allowlist.ApprovalCanHideADenial` | packit_service/worker/allowlist.py:171-198 | the approval walk alone says yes below a denied namespace, which is why denials are asked first |
| `LineBreaker.BreakLine` | packit_service/utils.py:594-609 | the inner loop makes the pieces of the greedy filling |
| `LineBreaker.BreakLinesInText` | packit_service/utils.py:588-615 | the whole text, line by line, with the white space in front of every piece |
| `LineBreaker.BrokenLineIsIndented` | packit_service/utils.py:589-610 | a long line becomes its pieces, each behind as many blanks as the line had white space in front, and before a line break |
| `LineBreaker.NothingIsLost` | packit_service/utils.py:593-610 | the pieces, one after the other, are the line that was broken |
| `LineBreaker.FillIsTheOnlyFullFit` | packit_service/utils.py:596-609 | filling is the only grouping of the parts in which each part fitted and no line had room for the next part |
| `LineBreaker.PiecesAreShort` | packit_service/utils.py:597-609 | an emitted line is a single part without the separator in it, or at most 2 * |sep| - 1 longer than the maximum |
| `LineBreaker.MaximumIsMetExactlyWhen` | packit_service/utils.py:571-609 | all emitted lines respect the maximum if and only if the lengths of the parts, run through one recursion, leave room for every separator |
| `LineBreaker.PieceIsTooLongExactlyWhen` | packit_service/utils.py:597-605 | an emitted line is too long if and only if its last part came in the window that the guard leaves open for the separators, or it is a single part without room for the one behind it |
| `LineBreaker.MaximumCanBeExceeded` | packit_service/utils.py:571-615 | for every separator and every maximum from 3 on there is a line, and what becomes of it, with a piece 2 * |sep| - 1 longer than the maximum |
| `LineBreaker.ShortLinesStay` | packit_service/utils.py:588-589 | lines that are not too long are unchanged |
| `Strings.JoinAfterSplit` | packit_service/utils.py:594-594 | joining what split returns gives the string back |
| `Strings.PartsAreUnsplittable` | packit_service/utils.py:594-594 | no part contains the separator |

## Left out

- SQLAlchemy's identity map: a stale null read is allowed wherever a session can serve one, other stale attributes are not modelled.
- PostgreSQL's detection of deadlocks, and waiting between unguarded creators whose transactions hold row locks of earlier statements: their updates are single atomic steps.
- Coherence of the other groups: the code relies on it only for Copr, Koji and test-run groups.
- A Log Detective call on several pipelines commits each of them in its own step; the code commits them together, or at the next nested clone, which is among the modelled interleavings because its reads may be stale.
- RetentionSweep.Database.DeleteOldData: the backup, compression and log files beside it, and the default age, are not modelled; ages are plain numbers compared as the interval is.
- Tables that refer to nothing the sweep deletes and that it does not read, such as installations, users' allowlist entries and configuration.
- NewestRun.NewerExactlyWhenLaterInItsClass: needs coherent groups, which `GroupCoherence` proves for Copr, Koji and test runs; without them only the acyclic part holds.
- CoprGroupMigration.Database.Downgrade: does not model when the session flushes; new pipelines of the group loaded last may reach the database only at the final commit, after their group column is dropped, and the downgrade then raises whenever that group has more targets than runs.
- CancelCutoff.NewBuildsAreSpared: is about Copr builds; the Koji, Testing Farm and Log Detective queries differ only in their status and ranch filters.
- EventWire.EventArrives: floats are reals within 0.4 microseconds of the time, exact on whole seconds, which doubles guarantee until the year 2106; the transport in between is the identity, and naive datetimes are UTC.
- EventWire.GetEventDict: `project_url` takes the database project's URL as a parameter, and nested values of other attributes are copied as they are.
- MergedRuns.RunsAreFoundByTheirMergedId: the collected arrays are represented by the set of member pipelines, whose columns they list; the page slice of the listing is left out.
- MostRecent.GetMostRecentTargets: times are either null or comparable; mixing naive and aware datetimes is not modelled.
- SidetagLock.KojiHasOneSidetagPerPlace: Koji itself is a set of live names that only the body adds to and anything may expire; Kerberos and branch aliases are not modelled.
- ScanLock.BodyIsEnteredAtMostOnce: the calls to OpenScanHub inside the body, and scans found by task id, are not modelled.
- JobMatching.GetHandlersForEvent: the tables from job types to handlers, the events each handler supports and the handlers of a command are parameters; what is proved holds for any tables.
- JobMatching.HandlerJobsInOrderExactlyWhen: a tagged Koji build is left out, because its job is made up and stands nowhere in the configuration.
- JobMatching.GetJobsMatchingEvent: label matching is a fixed unknown predicate, and attributes of a job that no condition names are one opaque value.
- JobProcessing.SteveJobs.ProcessJobs: exceptions of the allowlist, of status reporting and of Celery are not modelled; the early answers for comments without a command and repositories without a configuration are left out, as is Fedora CI.
- Allowlist.AllowlistTable.AddNamespace: two concurrent calls can both add an entry, as the column is not unique; then the model reads the first row where the query may return any.
- Allowlist.AllowlistTable.CheckActorEvent: write access and authorship come as one flag; comments, statuses and the bypass for administrators are left out.
- LineBreaker.BreakLinesInText: `splitlines` and the choice of white-space characters are inputs; an empty separator, which Python refuses, is excluded.
- Parsing of forge messages, the Flask API, dashboards, usage statistics, configuration loading, enum migrations and the other grouping migrations, which follow the pattern of the Copr one.
