/**
What the retention sweep guarantees: it commits exactly when the surviving tables are sound, it
spares all that a kept pipeline reaches and nothing else, one pass is enough, and an earlier
milder sweep makes no difference to a later one.
*/
module RetentionTheorems {
  import opened Options
  import opened RetentionSchema
  import opened RetentionSweep

  /** The sweep as the method performs it: commit the survivors or roll back. */
  function Swept(db: Db, age: int): Db {
    if CommitCondition(db, age) then Survivors(db, age) else db
  }

  // ---- When it commits ----

  lemma LiveRowsKeepPipelineKeys(db: Db, age: int, p: Id)
    requires ForeignKeys(db) && p in Kept(db, age)
    ensures var live := LiveRows(db, age);
            PipelineKeys(live.events, live.items, live.groups, live.pipelines[p])
  {
  }

  lemma LiveTargetsKeepKeys(db: Db, age: int)
    requires ForeignKeys(db)
    ensures var live := LiveRows(db, age);
            && TargetKeys(live.targets, live.groups)
            && (forall s | s in live.scans :: RefersTo(live.targets, Copr, live.scans[s]))
            && (forall r | r in live.logRuns :: LogRunKeys(live.targets, live.groups, live.logRuns[r]))
  {
  }

  lemma LiveProjectsKeepKeys(db: Db, age: int)
    requires ForeignKeys(db)
    ensures var after := Survivors(db, age);
            && ProjectKeys(after.authIssues, after.projects) && ProjectKeys(after.downstreamPrs, after.projects)
            && (ProjectKeys(after.objects, after.projects) <==> TagProjectsLive(db, age))
  {
    var live, after := LiveRows(db, age), Survivors(db, age);
    forall o | o in live.objects && RetentionSchema.Swept(o.kind) && live.objects[o].Some?
      ensures live.objects[o].value in after.projects
    {
      assert Referenced(live, Some(live.objects[o].value));
    }
    forall r | r in live.authIssues && live.authIssues[r].Some? ensures live.authIssues[r].value in after.projects {
      assert Referenced(live, Some(live.authIssues[r].value));
    }
    forall r | r in live.downstreamPrs && live.downstreamPrs[r].Some?
      ensures live.downstreamPrs[r].value in after.projects
    {
      assert Referenced(live, Some(live.downstreamPrs[r].value));
    }
    forall o | o in db.objects && !RetentionSchema.Swept(o.kind) ensures o in live.objects {
    }
  }

  lemma LivePairsKeepKeys(db: Db, age: int)
    requires ForeignKeys(db)
    ensures var live := LiveRows(db, age);
            && AssociationKeys(live.tfCopr, live.targets, Copr) && AssociationKeys(live.tfKoji, live.targets, Koji)
            && SyncPrKeys(live.syncPrs, live.targets, live.downstreamPrs)
  {
    hide GroupInUse, ItemInUse, EventInUse, ObjectInUse;
  }

  lemma LivePipelinesAreKept(db: Db, age: int)
    ensures LiveRows(db, age).pipelines == Kept(db, age) && LiveRows(db, age).prPairs == db.prPairs
    ensures Survivors(db, age) == LiveRows(db, age).(projects := Survivors(db, age).projects)
  {
    hide LiveRows, Referenced;
    assert LiveRows(db, age).pipelines == Kept(db, age) && LiveRows(db, age).prPairs == db.prPairs by {
      LiveFields(db, age);
    }
  }

  lemma LiveFields(db: Db, age: int)
    ensures LiveRows(db, age).pipelines == Kept(db, age) && LiveRows(db, age).prPairs == db.prPairs
  {
  }

  /** It commits exactly when the surviving tables are sound: no order of statements matters. */
  lemma CommitsWhenSurvivorsAreSound(db: Db, age: int)
    requires ForeignKeys(db)
    ensures CommitCondition(db, age) <==> ForeignKeys(Survivors(db, age))
    ensures ForeignKeys(Swept(db, age))
  {
    hide LiveRows, Survivors, RefersTo, LogRunKeys, AssociationKeys, SyncPrKeys, TargetKeys, PipelineKeys, PrPairKeys,
      ProjectKeys, TagProjectsLive;
    LivePipelinesAreKept(db, age);
    LiveProjectsKeepKeys(db, age);
    KeysBarProjects(db, age);
  }

  /** All keys of the survivors but those to the objects and the projects. */
  lemma KeysBarProjects(db: Db, age: int)
    requires ForeignKeys(db)
    ensures var after := Survivors(db, age);
            ForeignKeys(after) <==>
              && (forall l | l in after.prPairs :: PrPairKeys(after.objects, after.prPairs[l]))
              && ProjectKeys(after.objects, after.projects) && ProjectKeys(after.authIssues, after.projects)
              && ProjectKeys(after.downstreamPrs, after.projects)
  {
    hide LiveRows, Survivors, RefersTo, LogRunKeys, AssociationKeys, SyncPrKeys, TargetKeys, PipelineKeys, PrPairKeys,
      ProjectKeys;
    var live, after := LiveRows(db, age), Survivors(db, age);
    LivePipelinesAreKept(db, age);
    LiveTargetsKeepKeys(db, age);
    LivePairsKeepKeys(db, age);
    forall p | p in after.pipelines ensures PipelineKeys(after.events, after.items, after.groups, after.pipelines[p]) {
      LiveRowsKeepPipelineKeys(db, age, p);
    }
  }

  // ---- What it spares ----

  /** A kept pipeline keeps its event, the object of that event and, on commit, the object's git project. */
  lemma EventsOfKeptPipelinesSurvive(db: Db, age: int, p: Id)
    requires ForeignKeys(db) && CommitCondition(db, age) && p in db.pipelines
    requires db.pipelines[p].age.None? || db.pipelines[p].age.value < age
    requires db.pipelines[p].event.Some?
    ensures var after, e := Survivors(db, age), db.pipelines[p].event.value;
            && p in after.pipelines && e in after.events && after.events[e] == db.events[e]
            && var event := db.events[e];
               event.subject.Some? && ObjectRef(event.kind, event.subject.value) in db.objects ==>
                 var o := ObjectRef(event.kind, event.subject.value);
                 && o in after.objects && after.objects[o] == db.objects[o]
                 && (db.objects[o].Some? ==> db.objects[o].value in after.projects)
  {
  }

  /** A kept pipeline keeps its SRPM and image, its groups, all targets in them and their log runs' builds. */
  lemma BuildsOfKeptPipelinesSurvive(db: Db, age: int, p: Id)
    requires ForeignKeys(db) && p in db.pipelines
    requires db.pipelines[p].age.None? || db.pipelines[p].age.value < age
    ensures var after := Survivors(db, age);
            && (forall k | k in db.pipelines[p].items :: ItemRef(k, db.pipelines[p].items[k]) in after.items)
            && (forall k | k in db.pipelines[p].groups ::
                  && GroupRef(k, db.pipelines[p].groups[k]) in after.groups
                  && forall t | t in db.targets && t.kind == k && db.targets[t] == Some(db.pipelines[p].groups[k]) ::
                       t in after.targets && after.targets[t] == db.targets[t])
  {
    var after := Survivors(db, age);
    assert p in Kept(db, age);
    LiveRowsKeepPipelineKeys(db, age, p);
    forall k, t | k in db.pipelines[p].groups && t in db.targets && t.kind == k
      && db.targets[t] == Some(db.pipelines[p].groups[k])
      ensures t in after.targets
    {
      assert LinksGroup(Kept(db, age)[p], GroupRef(k, db.pipelines[p].groups[k]));
    }
  }

  /** A test run stays associated with a build exactly as long as both are there. */
  lemma AssociationsSurviveWithBothEnds(db: Db, age: int, build: Id, test: Id)
    requires ForeignKeys(db)
    ensures var after := Survivors(db, age);
            && ((build, test) in db.tfCopr ==>
                 ((build, test) in after.tfCopr <==>
                  TargetRef(Copr, build) in after.targets && TargetRef(TestRun, test) in after.targets))
            && ((build, test) in db.tfKoji ==>
                 ((build, test) in after.tfKoji <==>
                  TargetRef(Koji, build) in after.targets && TargetRef(TestRun, test) in after.targets))
  {
  }

  /** Nothing else is spared: what survives is held by a surviving pipeline, or has a null group. */
  lemma SurvivorsAreHeld(db: Db, age: int)
    requires ForeignKeys(db)
    ensures var after := Survivors(db, age);
            && (forall p | p in after.pipelines :: after.pipelines[p].age.None? || after.pipelines[p].age.value < age)
            && (forall e | e in after.events :: EventInUse(after.pipelines, e))
            && (forall i | i in after.items :: ItemInUse(after.pipelines, i))
            && (forall g | g in after.groups && PrunedGroup(g.kind) :: GroupInUse(after.pipelines, g))
            && (forall t | t in after.targets && t.kind in TARGET_KINDS && after.targets[t].Some? ::
                  GroupInUse(after.pipelines, GroupRef(t.kind, after.targets[t].value)))
            && (forall o | o in after.objects && RetentionSchema.Swept(o.kind) :: ObjectInUse(after.events, o))
            && (forall q | q in after.projects :: Referenced(after, None) || Referenced(after, Some(q)))
  {
    var live, after := LiveRows(db, age), Survivors(db, age);
    assert forall x :: Referenced(after, x) == Referenced(live, x);
  }

  // ---- One pass is enough, and milder passes do not matter ----

  /** The milder sweep keeps every pipeline that the stricter one keeps. */
  lemma InUseIsMonotone(db: Db, older: int, younger: int)
    requires younger <= older
    ensures Kept(Survivors(db, older), younger) == Kept(db, younger)
    ensures forall e: Id :: EventInUse(Kept(db, younger), e) ==> EventInUse(Kept(db, older), e)
    ensures forall i :: ItemInUse(Kept(db, younger), i) ==> ItemInUse(Kept(db, older), i)
    ensures forall g :: GroupInUse(Kept(db, younger), g) ==> GroupInUse(Kept(db, older), g)
  {
  }

  lemma EventsAgain(db: Db, older: int, younger: int)
    requires younger <= older
    ensures LiveEvents(Survivors(db, older), Kept(db, younger)) == LiveEvents(db, Kept(db, younger))
  {
  }

  /** What lives after the stricter sweep lives after the milder one, and is judged alike in its result. */
  lemma StricterSparesFewer(db: Db, older: int, younger: int)
    requires younger <= older
    ensures forall t :: TargetLives(db, Kept(db, younger), t) ==> TargetLives(db, Kept(db, older), t)
    ensures forall t :: TargetLives(Survivors(db, older), Kept(db, younger), t) == TargetLives(db, Kept(db, younger), t)
  {
    InUseIsMonotone(db, older, younger);
    SurvivingTargets(db, older);
    hide Kept, Survivors, GroupInUse;
  }

  lemma SurvivingTargets(db: Db, age: int)
    ensures Survivors(db, age).targets == map t | t in db.targets && TargetLives(db, Kept(db, age), t) :: db.targets[t]
  {
    hide TargetLives, Kept;
  }

  lemma TargetTableAgain(db: Db, older: int, younger: int)
    requires younger <= older
    ensures var again, once := LiveRows(Survivors(db, older), younger), LiveRows(db, younger); again.targets == once.targets
  {
    hide Kept, TargetLives, Referenced;
    InUseIsMonotone(db, older, younger);
    StricterSparesFewer(db, older, younger);
  }

  lemma ScanTableAgain(db: Db, older: int, younger: int)
    requires younger <= older
    ensures var again, once := LiveRows(Survivors(db, older), younger), LiveRows(db, younger); again.scans == once.scans
  {
    hide Kept, TargetLives, Referenced;
    InUseIsMonotone(db, older, younger);
    StricterSparesFewer(db, older, younger);
  }

  lemma LogRunsAgain(db: Db, older: int, younger: int)
    requires younger <= older
    ensures forall r :: LogRunLives(db, Kept(db, younger), r) ==> LogRunLives(db, Kept(db, older), r)
    ensures forall r :: LogRunLives(Survivors(db, older), Kept(db, younger), r) == LogRunLives(db, Kept(db, younger), r)
  {
    StricterSparesFewer(db, older, younger);
  }

  lemma LogRunTableAgain(db: Db, older: int, younger: int)
    requires younger <= older
    ensures var again, once := LiveRows(Survivors(db, older), younger), LiveRows(db, younger); again.logRuns == once.logRuns
  {
    InUseIsMonotone(db, older, younger);
    LogRunsAgain(db, older, younger);
  }

  lemma TfCoprTableAgain(db: Db, older: int, younger: int)
    requires younger <= older
    ensures var again, once := LiveRows(Survivors(db, older), younger), LiveRows(db, younger); again.tfCopr == once.tfCopr
  {
    hide Kept, TargetLives, Referenced;
    InUseIsMonotone(db, older, younger);
    StricterSparesFewer(db, older, younger);
  }

  lemma TfKojiTableAgain(db: Db, older: int, younger: int)
    requires younger <= older
    ensures var again, once := LiveRows(Survivors(db, older), younger), LiveRows(db, younger); again.tfKoji == once.tfKoji
  {
    hide Kept, TargetLives, Referenced;
    InUseIsMonotone(db, older, younger);
    StricterSparesFewer(db, older, younger);
  }

  lemma SyncPrTableAgain(db: Db, older: int, younger: int)
    requires younger <= older
    ensures var again, once := LiveRows(Survivors(db, older), younger), LiveRows(db, younger); again.syncPrs == once.syncPrs
  {
    hide Kept, TargetLives, Referenced;
    InUseIsMonotone(db, older, younger);
    StricterSparesFewer(db, older, younger);
  }

  lemma ItemTableAgain(db: Db, older: int, younger: int)
    requires younger <= older
    ensures var again, once := LiveRows(Survivors(db, older), younger), LiveRows(db, younger); again.items == once.items
  {
    InUseIsMonotone(db, older, younger);
  }

  lemma GroupTableAgain(db: Db, older: int, younger: int)
    requires younger <= older
    ensures var again, once := LiveRows(Survivors(db, older), younger), LiveRows(db, younger); again.groups == once.groups
  {
    InUseIsMonotone(db, older, younger);
  }

  lemma ObjectInUseIsMonotone(db: Db, older: int, younger: int, o: ObjectRef)
    requires younger <= older && ObjectInUse(LiveEvents(db, Kept(db, younger)), o)
    ensures ObjectInUse(LiveEvents(db, Kept(db, older)), o)
  {
    hide Kept, EventInUse;
    InUseIsMonotone(db, older, younger);
    var e :| e in LiveEvents(db, Kept(db, younger))
          && LiveEvents(db, Kept(db, younger))[e] == Event(o.kind, Some(o.id));
    assert LiveEvents(db, Kept(db, older))[e] == Event(o.kind, Some(o.id));
  }

  lemma ObjectTableAgain(db: Db, older: int, younger: int)
    requires younger <= older
    ensures var again, once := LiveRows(Survivors(db, older), younger), LiveRows(db, younger); again.objects == once.objects
  {
    hide Kept, EventInUse, ObjectInUse, LiveEvents, Referenced;
    InUseIsMonotone(db, older, younger);
    EventsAgain(db, older, younger);
    forall o: ObjectRef | ObjectInUse(LiveEvents(db, Kept(db, younger)), o)
      ensures ObjectInUse(LiveEvents(db, Kept(db, older)), o)
    {
      ObjectInUseIsMonotone(db, older, younger, o);
    }
  }

  /** After the milder sweep the stricter one finds the same live rows. */
  lemma LiveRowsAgain(db: Db, older: int, younger: int)
    requires younger <= older
    ensures LiveRows(Survivors(db, older), younger) ==
            LiveRows(db, younger).(projects := Survivors(db, older).projects)
  {
    InUseIsMonotone(db, older, younger);
    EventsAgain(db, older, younger);
    TargetTableAgain(db, older, younger);
    ScanTableAgain(db, older, younger);
    LogRunTableAgain(db, older, younger);
    TfCoprTableAgain(db, older, younger);
    TfKojiTableAgain(db, older, younger);
    SyncPrTableAgain(db, older, younger);
    ItemTableAgain(db, older, younger);
    GroupTableAgain(db, older, younger);
    ObjectTableAgain(db, older, younger);
  }

  lemma ReferencedAgain(db: Db, older: int, younger: int, project: Option<Id>)
    requires younger <= older
    ensures Referenced(LiveRows(Survivors(db, older), younger), project) == Referenced(LiveRows(db, younger), project)
    ensures Referenced(LiveRows(db, younger), project) ==> Referenced(LiveRows(db, older), project)
  {
    hide LiveRows;
    LiveRowsAgain(db, older, younger);
    LiveObjectsAreNested(db, older, younger);
    LiveColumns(db, older);
    LiveColumns(db, younger);
  }

  lemma LiveColumns(db: Db, age: int)
    ensures LiveRows(db, age).authIssues == db.authIssues && LiveRows(db, age).downstreamPrs == db.downstreamPrs
    ensures LiveRows(db, age).projects == db.projects && LiveRows(db, age).prPairs == db.prPairs
  {
  }

  lemma LiveObjectsAreNested(db: Db, older: int, younger: int)
    requires younger <= older
    ensures forall o | o in LiveRows(db, younger).objects ::
              o in LiveRows(db, older).objects && LiveRows(db, older).objects[o] == LiveRows(db, younger).objects[o]
  {
    hide Kept, ObjectInUse, LiveEvents;
    forall o: ObjectRef | ObjectInUse(LiveEvents(db, Kept(db, younger)), o)
      ensures ObjectInUse(LiveEvents(db, Kept(db, older)), o)
    {
      ObjectInUseIsMonotone(db, older, younger, o);
    }
  }

  /** The sweep spares every object outside the tables that it prunes. */
  lemma OtherObjectsStay(db: Db, age: int)
    ensures forall o: ObjectRef | !RetentionSchema.Swept(o.kind) :: o in Survivors(db, age).objects <==> o in db.objects
    ensures forall o | o in Survivors(db, age).objects :: o in db.objects && Survivors(db, age).objects[o] == db.objects[o]
    ensures Survivors(db, age).prPairs == db.prPairs
  {
    hide ObjectInUse, LiveEvents, Kept, Referenced;
  }

  lemma {:induction false} DecisionIsTheSame(db: Db, older: int, younger: int)
    requires younger <= older
    ensures CommitCondition(Survivors(db, older), younger) == CommitCondition(db, younger)
  {
    hide LiveRows, Survivors, Referenced, PrPairKeys;
    var first := Survivors(db, older);
    LiveRowsAgain(db, older, younger);
    forall project ensures Referenced(LiveRows(first, younger), project) == Referenced(LiveRows(db, younger), project) {
      ReferencedAgain(db, older, younger, project);
    }
    OtherObjectsStay(db, older);
  }

  lemma {:induction false} ProjectsAgain(db: Db, older: int, younger: int)
    requires younger <= older
    ensures Survivors(Survivors(db, older), younger).projects == Survivors(db, younger).projects
  {
    var first := Survivors(db, older);
    hide LiveRows, Referenced;
    LiveRowsAgain(db, older, younger);
    LiveColumns(db, older);
    LiveColumns(db, younger);
    forall q: Id ensures q in Survivors(first, younger).projects <==> q in Survivors(db, younger).projects {
      ReferencedAgain(db, older, younger, None);
      ReferencedAgain(db, older, younger, Some(q));
    }
  }

  /** The stricter sweep decides to commit, and leaves, the same with or without the milder one before it. */
  lemma {:induction false} SweepsCompose(db: Db, older: int, younger: int)
    requires younger <= older
    ensures CommitCondition(Survivors(db, older), younger) == CommitCondition(db, younger)
    ensures Survivors(Survivors(db, older), younger) == Survivors(db, younger)
  {
    DecisionIsTheSame(db, older, younger);
    ProjectsAgain(db, older, younger);
    LiveRowsAgain(db, older, younger);
    hide LiveRows, Referenced;
    SurvivorsAreLive(db, younger);
    SurvivorsAreLive(Survivors(db, older), younger);
  }

  lemma SurvivorsAreLive(db: Db, age: int)
    ensures Survivors(db, age) == LiveRows(db, age).(projects := Survivors(db, age).projects)
  {
    hide LiveRows;
  }

  /** One pass is enough: the same sweep again commits and deletes nothing. */
  lemma {:induction false} SweepIsAFixpoint(db: Db, age: int)
    ensures Swept(Swept(db, age), age) == Swept(db, age)
    ensures CommitCondition(db, age) ==> CommitCondition(Survivors(db, age), age)
  {
    SweepsCompose(db, age, age);
  }

  /** Every row stands already: no statement of the sweep would delete one. */
  predicate NothingToSweep(db: Db, age: int) {
    && (forall p | p in db.pipelines :: db.pipelines[p].age.None? || db.pipelines[p].age.value < age)
    && (forall e | e in db.events :: EventInUse(db.pipelines, e))
    && (forall i | i in db.items :: ItemInUse(db.pipelines, i))
    && (forall g | g in db.groups && PrunedGroup(g.kind) :: GroupInUse(db.pipelines, g))
    && (forall t | t in db.targets :: TargetLives(db, db.pipelines, t))
    && (forall c | c in db.scans && db.scans[c].Some? :: TargetLives(db, db.pipelines, TargetRef(Copr, db.scans[c].value)))
    && (forall r | r in db.logRuns :: LogRunLives(db, db.pipelines, db.logRuns[r]))
    && (forall a | a in db.tfCopr ::
          TargetLives(db, db.pipelines, TargetRef(Copr, a.0)) && TargetLives(db, db.pipelines, TargetRef(TestRun, a.1)))
    && (forall a | a in db.tfKoji ::
          TargetLives(db, db.pipelines, TargetRef(Koji, a.0)) && TargetLives(db, db.pipelines, TargetRef(TestRun, a.1)))
    && (forall a | a in db.syncPrs :: TargetLives(db, db.pipelines, TargetRef(Sync, a.0)))
    && (forall o | o in db.objects && RetentionSchema.Swept(o.kind) :: ObjectInUse(db.events, o))
    && (forall q | q in db.projects :: Referenced(db, None) || Referenced(db, Some(q)))
  }

  lemma {:induction false} UnchangedHasNothingToSweep(db: Db, age: int)
    requires Survivors(db, age) == db
    ensures NothingToSweep(db, age)
  {
    hide TargetLives, LogRunLives, GroupInUse, ItemInUse, EventInUse, ObjectInUse, Referenced;
    var live := LiveRows(db, age);
    assert Kept(db, age) == db.pipelines && LiveEvents(db, Kept(db, age)) == db.events;
    assert live == db by {
      SurvivorsAreLive(db, age);
      LiveColumns(db, age);
    }
    assert DeleteProjects(db) == db;
  }

  lemma {:induction false} NothingDiesWhenNothingIsSwept(db: Db, age: int)
    requires NothingToSweep(db, age)
    ensures var live := LiveRows(db, age);
            && live.pipelines == db.pipelines && live.events == db.events && live.items == db.items
            && live.groups == db.groups && live.objects == db.objects
  {
    hide TargetLives, LogRunLives, GroupInUse, ItemInUse, EventInUse, ObjectInUse, Referenced;
    assert Kept(db, age) == db.pipelines;
    assert LiveEvents(db, db.pipelines) == db.events;
  }

  lemma {:induction false} NoTargetDiesWhenNothingIsSwept(db: Db, age: int)
    requires NothingToSweep(db, age)
    ensures var live := LiveRows(db, age);
            && live.targets == db.targets && live.scans == db.scans && live.logRuns == db.logRuns
            && live.tfCopr == db.tfCopr && live.tfKoji == db.tfKoji && live.syncPrs == db.syncPrs
  {
    hide TargetLives, LogRunLives, GroupInUse, ItemInUse, EventInUse, ObjectInUse, Referenced;
    assert Kept(db, age) == db.pipelines;
  }

  lemma {:induction false} NothingToSweepIsUnchanged(db: Db, age: int)
    requires NothingToSweep(db, age)
    ensures Survivors(db, age) == db
  {
    NothingDiesWhenNothingIsSwept(db, age);
    NoTargetDiesWhenNothingIsSwept(db, age);
    LiveColumns(db, age);
    hide LiveRows, TargetLives, LogRunLives, GroupInUse, ItemInUse, EventInUse, ObjectInUse, Referenced;
  }

  /**
  A milder sweep before a stricter one leaves no trace exactly when the stricter one commits, or
  the milder one does not commit, or it has nothing to delete.
  */
  lemma {:induction false} MilderSweepLeavesNoTrace(db: Db, older: int, younger: int)
    requires younger <= older
    ensures Swept(Swept(db, older), younger) == Swept(db, younger) <==>
            CommitCondition(db, younger) || !CommitCondition(db, older) || NothingToSweep(db, older)
  {
    SweepsCompose(db, older, younger);
    if NothingToSweep(db, older) {
      NothingToSweepIsUnchanged(db, older);
    }
    if Survivors(db, older) == db {
      UnchangedHasNothingToSweep(db, older);
    }
    hide Survivors, CommitCondition, NothingToSweep;
  }

  // ---- Two databases that block the sweep ----

  /**
   A pull request with a source-git pair whose only pipeline is 7 days old, a pipeline of 12 days
   without an event, and a new one for a branch.
   */
  function PairedPullRequest(): Db {
    Db(map[1 := Pipeline(Some(7), Some(1), map[], map[]), 2 := Pipeline(Some(12), None, map[], map[]),
           3 := Pipeline(Some(0), Some(3), map[], map[])],
       map[1 := Event(PullRequest, Some(1)), 3 := Event(Branch, Some(3))], {}, {}, map[], map[], map[], {}, {}, {},
       map[ObjectRef(PullRequest, 1) := None, ObjectRef(Branch, 3) := None], map[], map[],
       map[1 := PrPair(Some(1), None)], {})
  }

  lemma {:induction false} PullRequestLivesAtTenDays()
    ensures ObjectRef(PullRequest, 1) in LiveRows(PairedPullRequest(), 10).objects
  {
    var db := PairedPullRequest();
    var pr := ObjectRef(PullRequest, 1);
    var kept := Kept(db, 10);
    assert 1 in kept && kept[1].event == Some(1);
    assert EventInUse(kept, 1);
    assert LiveEvents(db, kept)[1] == Event(pr.kind, Some(pr.id));
    assert ObjectInUse(LiveEvents(db, kept), pr);
  }

  lemma {:induction false} PairIsSparedAtTenDays()
    ensures CommitCondition(PairedPullRequest(), 10)
  {
    hide LiveRows, Referenced;
    PullRequestLivesAtTenDays();
  }

  lemma {:induction false} PairBlocksAtFiveDays()
    ensures !CommitCondition(PairedPullRequest(), 5)
  {
    var db := PairedPullRequest();
    var pr := ObjectRef(PullRequest, 1);
    var kept := Kept(db, 5);
    assert !ObjectInUse(LiveEvents(db, kept), pr);
    assert pr !in LiveRows(db, 5).objects;
    assert !PrPairKeys(LiveRows(db, 5).objects, db.prPairs[1]);
  }

  lemma PairedPullRequestIsSound()
    ensures ForeignKeys(PairedPullRequest())
    ensures PairedPullRequest().pipelines[2].age == Some(12)
  {
  }

  /** The sweep at 10 days commits, the one at 5 days is blocked by the pair, so the milder one shows. */
  lemma {:induction false} MilderSweepCanLeaveATrace()
    ensures ForeignKeys(PairedPullRequest())
    ensures Swept(Swept(PairedPullRequest(), 10), 5) != Swept(PairedPullRequest(), 5)
  {
    PairedPullRequestIsSound();
    PairIsSparedAtTenDays();
    PairBlocksAtFiveDays();
    assert PairedPullRequest().pipelines[2].age.value >= 10;
    MilderSweepLeavesNoTrace(PairedPullRequest(), 10, 5);
  }

  /** A Koji tag in an otherwise unreferenced git project blocks the sweep at every age. */
  lemma {:induction false} KojiTagBlocksTheSweep(age: int)
    ensures var tag := ObjectRef(KojiBuildTag, 1);
            var db := Db(map[], map[], {}, {}, map[], map[], map[], {}, {}, {}, map[tag := Some(9)], map[], map[], map[], {9});
            ForeignKeys(db) && !CommitCondition(db, age)
  {
  }
}
