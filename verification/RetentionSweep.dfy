/**
The retention sweep: a long series of DELETE statements in one transaction.  `Survivors` says in
one stroke, from the tables before, what is left; `CommitCondition` says when the foreign keys
let the transaction commit.  The method runs the statements and is proved to do exactly that.
*/
module RetentionSweep {
  import opened Options
  import opened RetentionSchema

  // ---- What is left, read off the tables before ----

  function Kept(db: Db, age: int): map<Id, Pipeline> {
    map p | p in db.pipelines && !Outdated(db.pipelines[p], age) :: db.pipelines[p]
  }

  /** Sync releases are only pruned of their targets, Log Detective groups not at all. */
  predicate PrunedGroup(kind: GroupKind) {
    kind != Sync && kind != LogDetective
  }

  /** A target outlives the sweep when its group is null or a kept pipeline points to it. */
  predicate TargetLives(db: Db, kept: map<Id, Pipeline>, t: TargetRef) {
    && t in db.targets
    && (t.kind != LogDetective && db.targets[t].Some? ==> GroupInUse(kept, GroupRef(t.kind, db.targets[t].value)))
  }

  predicate LogRunLives(db: Db, kept: map<Id, Pipeline>, r: LogDetectiveRun) {
    && (r.copr.Some? ==> TargetLives(db, kept, TargetRef(Copr, r.copr.value)))
    && (r.koji.Some? ==> TargetLives(db, kept, TargetRef(Koji, r.koji.value)))
  }

  function LiveEvents(db: Db, kept: map<Id, Pipeline>): map<Id, Event> {
    map e | e in db.events && EventInUse(kept, e) :: db.events[e]
  }

  /** Everything but the git projects. */
  function LiveRows(db: Db, age: int): Db {
    var kept := Kept(db, age);
    db.(
    pipelines := kept,
    events := LiveEvents(db, kept),
    items := (set i | i in db.items && ItemInUse(kept, i)),
    groups := (set g | g in db.groups && (PrunedGroup(g.kind) ==> GroupInUse(kept, g))),
    targets := (map t | t in db.targets && TargetLives(db, kept, t) :: db.targets[t]),
    scans := (map s | s in db.scans && (db.scans[s].Some? ==> TargetLives(db, kept, TargetRef(Copr, db.scans[s].value)))
              :: db.scans[s]),
    logRuns := (map r | r in db.logRuns && LogRunLives(db, kept, db.logRuns[r]) :: db.logRuns[r]),
    tfCopr := (set a | a in db.tfCopr
      && TargetLives(db, kept, TargetRef(Copr, a.0)) && TargetLives(db, kept, TargetRef(TestRun, a.1))),
    tfKoji := (set a | a in db.tfKoji
      && TargetLives(db, kept, TargetRef(Koji, a.0)) && TargetLives(db, kept, TargetRef(TestRun, a.1))),
    syncPrs := (set a | a in db.syncPrs && TargetLives(db, kept, TargetRef(Sync, a.0))),
    objects := (map o | o in db.objects && (Swept(o.kind) ==> ObjectInUse(LiveEvents(db, kept), o)) :: db.objects[o]))
  }

  /** A git project goes when nothing that counts refers to it, unless some project id is null. */
  function Survivors(db: Db, age: int): Db {
    DeleteProjects(LiveRows(db, age))
  }

  /** No source-git pair refers to a pull request without a kept pipeline. */
  predicate PrPairsLive(db: Db, age: int) {
    forall l | l in db.prPairs :: PrPairKeys(LiveRows(db, age).objects, db.prPairs[l])
  }

  /** No Koji tag or Anitya object refers to a git project that goes. */
  predicate TagProjectsLive(db: Db, age: int) {
    forall o | o in db.objects && !Swept(o.kind) && db.objects[o].Some? ::
      Referenced(LiveRows(db, age), None) || Referenced(LiveRows(db, age), db.objects[o])
  }

  predicate CommitCondition(db: Db, age: int) {
    PrPairsLive(db, age) && TagProjectsLive(db, age)
  }

  // ---- Each statement keeps the foreign keys, up to the last two tables ----

  lemma PipelinesKeepKeys(db: Db, age: int)
    requires ForeignKeys(db)
    ensures ForeignKeys(DeletePipelines(db, age))
  {
  }

  lemma EventsKeepKeys(db: Db)
    requires ForeignKeys(db)
    ensures ForeignKeys(DeleteEvents(db))
  {
  }

  lemma ItemsKeepKeys(db: Db, kind: ItemKind)
    requires ForeignKeys(db)
    ensures ForeignKeys(DeleteItems(db, kind))
  {
  }

  lemma TfCoprKeepsKeys(db: Db)
    requires ForeignKeys(db)
    ensures ForeignKeys(DeleteTfCoprByCopr(db)) && ForeignKeys(DeleteTfCoprByTest(db))
  {
  }

  lemma TfKojiKeepsKeys(db: Db)
    requires ForeignKeys(db)
    ensures ForeignKeys(DeleteTfKojiByKoji(db)) && ForeignKeys(DeleteTfKojiByTest(db))
  {
  }

  lemma ScansAndSyncPrsKeepKeys(db: Db)
    requires ForeignKeys(db)
    ensures ForeignKeys(DeleteScans(db)) && ForeignKeys(DeleteSyncPrs(db))
  {
  }

  /** Nothing that blocks a delete refers to an orphaned target of this kind. */
  predicate Unreferenced(db: Db, kind: GroupKind) {
    && (kind == Copr ==> forall a | a in db.tfCopr :: !Orphan(db, TargetRef(Copr, a.0)))
    && (kind == Copr ==> forall s | s in db.scans && db.scans[s].Some? :: !Orphan(db, TargetRef(Copr, db.scans[s].value)))
    && (kind == Koji ==> forall a | a in db.tfKoji :: !Orphan(db, TargetRef(Koji, a.0)))
    && (kind == TestRun ==> forall a | a in db.tfCopr :: !Orphan(db, TargetRef(TestRun, a.1)))
    && (kind == TestRun ==> forall a | a in db.tfKoji :: !Orphan(db, TargetRef(TestRun, a.1)))
    && (kind == Sync ==> forall a | a in db.syncPrs :: !Orphan(db, TargetRef(Sync, a.0)))
  }

  lemma TargetsKeepKeys(db: Db, kind: GroupKind)
    requires ForeignKeys(db) && Unreferenced(db, kind)
    ensures ForeignKeys(DeleteTargets(db, kind))
  {
    var db' := DeleteTargets(db, kind);
    forall r | r in db'.logRuns ensures LogRunKeys(db'.targets, db'.groups, db'.logRuns[r]) {
      assert LogRunKeys(db.targets, db.groups, db.logRuns[r]);
    }
    forall s | s in db'.scans ensures RefersTo(db'.targets, Copr, db'.scans[s]) {
      assert RefersTo(db.targets, Copr, db.scans[s]);
    }
  }

  lemma GroupsKeepKeys(db: Db, kind: GroupKind)
    requires ForeignKeys(db) && PrunedGroup(kind)
    ensures ForeignKeys(DeleteGroups(db, kind))
  {
  }

  lemma ObjectsKeepKeys(db: Db, kind: ObjectKind)
    requires ForeignKeys(db)
    ensures ForeignKeys(DeleteObjects(db, kind)) <==>
            forall l | l in db.prPairs :: PrPairKeys(DeleteObjects(db, kind).objects, db.prPairs[l])
  {
  }

  lemma ProjectsKeepKeys(db: Db)
    requires ForeignKeys(db)
    ensures ForeignKeys(DeleteProjects(db)) <==>
            forall o | o in db.objects && !Swept(o.kind) && db.objects[o].Some? ::
              Referenced(db, None) || Referenced(db, db.objects[o])
  {
  }

  // ---- What the statements have done once some kinds are through ----

  function PrunedItems(db: Db, done: set<ItemKind>): Db {
    db.(items := set i | i in db.items && (i.kind in done ==> ItemInUse(db.pipelines, i)))
  }

  /** The target, if any, is not an orphan of a kind that is through. */
  predicate Spared(db: Db, done: set<GroupKind>, kind: GroupKind, target: Option<Id>) {
    kind in done && target.Some? ==> !Orphan(db, TargetRef(kind, target.value))
  }

  function TargetsAfter(db: Db, done: set<GroupKind>): map<TargetRef, Option<Id>> {
    map t | t in db.targets && Spared(db, done, t.kind, Some(t.id)) :: db.targets[t]
  }

  function ScansAfter(db: Db, done: set<GroupKind>): map<Id, Option<Id>> {
    map s | s in db.scans && Spared(db, done, Copr, db.scans[s]) :: db.scans[s]
  }

  function LogRunsAfter(db: Db, done: set<GroupKind>): map<Id, LogDetectiveRun> {
    map r | r in db.logRuns
            && Spared(db, done, Copr, db.logRuns[r].copr) && Spared(db, done, Koji, db.logRuns[r].koji) :: db.logRuns[r]
  }

  function PairsAfter(db: Db, done: set<GroupKind>, kind: GroupKind, pairs: set<(Id, Id)>): set<(Id, Id)> {
    set a | a in pairs && Spared(db, done, kind, Some(a.0)) && Spared(db, done, TestRun, Some(a.1))
  }

  function SyncPrsAfter(db: Db, done: set<GroupKind>): set<(Id, Id)> {
    set a | a in db.syncPrs && Spared(db, done, Sync, Some(a.0))
  }

  function PrunedTargets(db: Db, done: set<GroupKind>): Db {
    db.(
    targets := TargetsAfter(db, done), scans := ScansAfter(db, done), logRuns := LogRunsAfter(db, done),
    tfCopr := PairsAfter(db, done, Copr, db.tfCopr), tfKoji := PairsAfter(db, done, Koji, db.tfKoji),
    syncPrs := SyncPrsAfter(db, done))
  }

  function PrunedGroups(db: Db, done: set<GroupKind>): Db {
    db.(groups := set g | g in db.groups && (g.kind in done ==> GroupInUse(db.pipelines, g)))
  }

  function PrunedObjects(db: Db, done: set<ObjectKind>): Db {
    db.(objects := map o | o in db.objects && (o.kind in done ==> ObjectInUse(db.events, o)) :: db.objects[o])
  }

  /** All the statements for the targets of one kind. */
  function PruneKind(db: Db, kind: GroupKind): Db {
    match kind
    case Copr => DeleteTargets(DeleteScans(DeleteTfCoprByCopr(db)), Copr)
    case Koji => DeleteTargets(DeleteTfKojiByKoji(db), Koji)
    case TestRun => DeleteTargets(DeleteTfKojiByTest(DeleteTfCoprByTest(db)), TestRun)
    case Sync => DeleteTargets(DeleteSyncPrs(db), Sync)
    case _ => DeleteTargets(db, kind)
  }

  /** Tables in which the targets of some kinds, and they alone, are through. */
  predicate TargetsThrough(db: Db, w: Db, done: set<GroupKind>) {
    w.pipelines == db.pipelines && w.groups == db.groups && w.targets == TargetsAfter(db, done)
  }

  /** Pruning one kind leaves the orphans of the others what they were. */
  lemma OrphansOfOtherKinds(db: Db, w: Db, done: set<GroupKind>, kind: GroupKind, id: Id)
    requires TargetsThrough(db, w, done) && kind !in done
    ensures Orphan(w, TargetRef(kind, id)) == Orphan(db, TargetRef(kind, id))
  {
  }

  lemma PruneTargets(db: Db, w: Db, done: set<GroupKind>, kind: GroupKind)
    requires TargetsThrough(db, w, done) && kind !in done
    ensures DeleteTargets(w, kind).targets == TargetsAfter(db, done + {kind})
  {
    forall id: Id ensures Orphan(w, TargetRef(kind, id)) == Orphan(db, TargetRef(kind, id)) {
      OrphansOfOtherKinds(db, w, done, kind, id);
    }
    var a, b := DeleteTargets(w, kind).targets, TargetsAfter(db, done + {kind});
    forall t: TargetRef ensures t in a <==> t in b {
      assert t.kind == kind ==> Orphan(w, t) == Orphan(db, TargetRef(kind, t.id));
    }
  }

  lemma PruneLogRuns(db: Db, w: Db, done: set<GroupKind>, kind: GroupKind)
    requires TargetsThrough(db, w, done) && kind !in done && w.logRuns == LogRunsAfter(db, done)
    ensures DeleteTargets(w, kind).logRuns == LogRunsAfter(db, done + {kind})
  {
    hide Orphan, Cascades, TargetsAfter;
    forall r | r in w.logRuns
      ensures Cascades(w, w.logRuns[r], kind) <==>
              !Spared(db, {kind}, Copr, w.logRuns[r].copr) || !Spared(db, {kind}, Koji, w.logRuns[r].koji)
    {
      CascadeHitsOrphans(db, w, done, kind, w.logRuns[r]);
    }
  }

  lemma CascadeHitsOrphans(db: Db, w: Db, done: set<GroupKind>, kind: GroupKind, r: LogDetectiveRun)
    requires TargetsThrough(db, w, done) && kind !in done
    ensures Cascades(w, r, kind) <==> !Spared(db, {kind}, Copr, r.copr) || !Spared(db, {kind}, Koji, r.koji)
  {
    hide Orphan, TargetsThrough;
    if r.copr.Some? {
      OrphansOfOtherKinds(db, w, done, kind, r.copr.value);
    }
    if r.koji.Some? {
      OrphansOfOtherKinds(db, w, done, kind, r.koji.value);
    }
  }

  lemma PruneTfCoprByCopr(db: Db, w: Db, done: set<GroupKind>)
    requires TargetsThrough(db, w, done) && Copr !in done && w.tfCopr == PairsAfter(db, done, Copr, db.tfCopr)
    ensures DeleteTfCoprByCopr(w).tfCopr == PairsAfter(db, done + {Copr}, Copr, db.tfCopr)
  {
  }

  lemma PruneTfCoprByTest(db: Db, w: Db, done: set<GroupKind>)
    requires TargetsThrough(db, w, done) && TestRun !in done && w.tfCopr == PairsAfter(db, done, Copr, db.tfCopr)
    ensures DeleteTfCoprByTest(w).tfCopr == PairsAfter(db, done + {TestRun}, Copr, db.tfCopr)
  {
  }

  lemma PruneTfKojiByKoji(db: Db, w: Db, done: set<GroupKind>)
    requires TargetsThrough(db, w, done) && Koji !in done && w.tfKoji == PairsAfter(db, done, Koji, db.tfKoji)
    ensures DeleteTfKojiByKoji(w).tfKoji == PairsAfter(db, done + {Koji}, Koji, db.tfKoji)
  {
  }

  lemma PruneTfKojiByTest(db: Db, w: Db, done: set<GroupKind>)
    requires TargetsThrough(db, w, done) && TestRun !in done && w.tfKoji == PairsAfter(db, done, Koji, db.tfKoji)
    ensures DeleteTfKojiByTest(w).tfKoji == PairsAfter(db, done + {TestRun}, Koji, db.tfKoji)
  {
  }

  lemma PruneSyncPrs(db: Db, w: Db, done: set<GroupKind>)
    requires TargetsThrough(db, w, done) && Sync !in done && w.syncPrs == SyncPrsAfter(db, done)
    ensures DeleteSyncPrs(w).syncPrs == SyncPrsAfter(db, done + {Sync})
  {
  }

  lemma PruneScans(db: Db, w: Db, done: set<GroupKind>)
    requires TargetsThrough(db, w, done) && Copr !in done && w.scans == ScansAfter(db, done)
    ensures DeleteScans(w).scans == ScansAfter(db, done + {Copr})
  {
  }

  // ---- The statements of one kind together ----

  lemma PruneCopr(db: Db, done: set<GroupKind>)
    requires Copr !in done
    ensures PruneKind(PrunedTargets(db, done), Copr) == PrunedTargets(db, done + {Copr})
  {
    var w := PrunedTargets(db, done);
    var w1 := DeleteTfCoprByCopr(w);
    var w2 := DeleteScans(w1);
    PruneTfCoprByCopr(db, w, done);
    PruneScans(db, w1, done);
    PruneTargets(db, w2, done, Copr);
    PruneLogRuns(db, w2, done, Copr);
    assert w.tfKoji == PairsAfter(db, done + {Copr}, Koji, db.tfKoji);
    assert w.syncPrs == SyncPrsAfter(db, done + {Copr});
  }

  lemma PruneKoji(db: Db, done: set<GroupKind>)
    requires Koji !in done
    ensures PruneKind(PrunedTargets(db, done), Koji) == PrunedTargets(db, done + {Koji})
  {
    var w := PrunedTargets(db, done);
    var w1 := DeleteTfKojiByKoji(w);
    PruneTfKojiByKoji(db, w, done);
    PruneTargets(db, w1, done, Koji);
    PruneLogRuns(db, w1, done, Koji);
    assert w.tfCopr == PairsAfter(db, done + {Koji}, Copr, db.tfCopr);
    assert w.syncPrs == SyncPrsAfter(db, done + {Koji});
    assert w.scans == ScansAfter(db, done + {Koji});
  }

  lemma PruneTests(db: Db, done: set<GroupKind>)
    requires TestRun !in done
    ensures PruneKind(PrunedTargets(db, done), TestRun) == PrunedTargets(db, done + {TestRun})
  {
    var w := PrunedTargets(db, done);
    var w1 := DeleteTfCoprByTest(w);
    var w2 := DeleteTfKojiByTest(w1);
    PruneTfCoprByTest(db, w, done);
    PruneTfKojiByTest(db, w1, done);
    PruneTargets(db, w2, done, TestRun);
    PruneLogRuns(db, w2, done, TestRun);
    assert w.syncPrs == SyncPrsAfter(db, done + {TestRun});
    assert w.scans == ScansAfter(db, done + {TestRun});
  }

  lemma PruneSync(db: Db, done: set<GroupKind>)
    requires Sync !in done
    ensures PruneKind(PrunedTargets(db, done), Sync) == PrunedTargets(db, done + {Sync})
  {
    var w := PrunedTargets(db, done);
    var w1 := DeleteSyncPrs(w);
    PruneSyncPrs(db, w, done);
    PruneTargets(db, w1, done, Sync);
    PruneLogRuns(db, w1, done, Sync);
    assert w.tfCopr == PairsAfter(db, done + {Sync}, Copr, db.tfCopr);
    assert w.tfKoji == PairsAfter(db, done + {Sync}, Koji, db.tfKoji);
    assert w.scans == ScansAfter(db, done + {Sync});
  }

  lemma PrunePlain(db: Db, done: set<GroupKind>, kind: GroupKind)
    requires kind !in done && (kind == Bodhi || kind == KojiTag)
    ensures PruneKind(PrunedTargets(db, done), kind) == PrunedTargets(db, done + {kind})
  {
    var w := PrunedTargets(db, done);
    PruneTargets(db, w, done, kind);
    PruneLogRuns(db, w, done, kind);
    assert w.tfCopr == PairsAfter(db, done + {kind}, Copr, db.tfCopr);
    assert w.tfKoji == PairsAfter(db, done + {kind}, Koji, db.tfKoji);
    assert w.scans == ScansAfter(db, done + {kind});
    assert w.syncPrs == SyncPrsAfter(db, done + {kind});
  }

  lemma CoprUnreferenced(db: Db)
    ensures Unreferenced(DeleteScans(DeleteTfCoprByCopr(db)), Copr)
  {
  }

  lemma TestsUnreferenced(db: Db)
    ensures Unreferenced(DeleteTfKojiByTest(DeleteTfCoprByTest(db)), TestRun)
  {
  }

  // ---- The loops over lists of tables ----

  const ITEM_KINDS := [Srpm, VmImage]
  const TARGET_KINDS := {Copr, Koji, TestRun, Sync, Bodhi, KojiTag}
  const PLAIN_TARGET_KINDS := [Bodhi, KojiTag]
  const PRUNED_GROUP_KINDS := [Copr, Koji, TestRun, Bodhi, KojiTag]
  const SWEPT_OBJECT_KINDS := [PullRequest, Branch, Release, Issue]

  function Elements<T>(xs: seq<T>): set<T> {
    set x | x in xs
  }

  lemma ElementsGrow<T>(xs: seq<T>, i: nat)
    requires i < |xs|
    ensures Elements(xs[..i + 1]) == Elements(xs[..i]) + {xs[i]}
  {
  }

  lemma PruneOneItem(db: Db, done: set<ItemKind>, kind: ItemKind)
    ensures DeleteItems(PrunedItems(db, done), kind) == PrunedItems(db, done + {kind})
  {
  }

  lemma PruneOneObject(db: Db, done: set<ObjectKind>, kind: ObjectKind)
    ensures DeleteObjects(PrunedObjects(db, done), kind) == PrunedObjects(db, done + {kind})
  {
  }

  lemma PruneNothing(db: Db)
    ensures PrunedTargets(db, {}) == db
  {
  }

  /** The source-git pairs refer to pull requests alone. */
  lemma PairsSeePullRequests(db: Db, done: set<ObjectKind>, l: PrPair)
    requires PullRequest in done
    ensures PrPairKeys(PrunedObjects(db, done).objects, l) == PrPairKeys(DeleteObjects(db, PullRequest).objects, l)
  {
  }

  /** Every target that is left has a group some pipeline points to. */
  predicate NoOrphans(db: Db) {
    forall t | t in db.targets && t.kind in TARGET_KINDS && db.targets[t].Some? ::
      GroupInUse(db.pipelines, GroupRef(t.kind, db.targets[t].value))
  }

  lemma PruneOneGroup(db: Db, done: set<GroupKind>, kind: GroupKind)
    requires NoOrphans(db) && PrunedGroup(kind)
    ensures DeleteGroups(PrunedGroups(db, done), kind) == PrunedGroups(db, done + {kind})
  {
  }

  lemma TargetsPrunedLeaveNoOrphans(db: Db)
    requires ForeignKeys(db)
    ensures NoOrphans(PrunedTargets(db, TARGET_KINDS))
  {
  }

  // ---- The statements together leave the live rows ----

  function AfterEvents(db: Db, age: int): Db {
    DeleteEvents(DeletePipelines(db, age))
  }

  /** What the target statements see: the tables after pipelines, events and items are through. */
  function BeforeTargets(db: Db, age: int): Db {
    PrunedItems(AfterEvents(db, age), Elements(ITEM_KINDS))
  }

  function AfterTargets(db: Db, age: int): Db {
    PrunedTargets(BeforeTargets(db, age), TARGET_KINDS)
  }

  function AfterObjects(db: Db, age: int): Db {
    PrunedObjects(PrunedGroups(AfterTargets(db, age), Elements(PRUNED_GROUP_KINDS)), Elements(SWEPT_OBJECT_KINDS))
  }

  lemma SparedIsLive(db: Db, age: int, t: TargetRef)
    requires ForeignKeys(db) && t in db.targets
    ensures Spared(BeforeTargets(db, age), TARGET_KINDS, t.kind, Some(t.id)) ==
            TargetLives(db, Kept(db, age), t)
  {
  }

  ghost predicate SparedMeansLive(db: Db, kept: map<Id, Pipeline>, w: Db) {
    forall t | t in db.targets :: Spared(w, TARGET_KINDS, t.kind, Some(t.id)) == TargetLives(db, kept, t)
  }

  lemma TargetsAreLive(db: Db, kept: map<Id, Pipeline>, w: Db)
    requires SparedMeansLive(db, kept, w) && w.targets == db.targets
    ensures TargetsAfter(w, TARGET_KINDS) == map t | t in db.targets && TargetLives(db, kept, t) :: db.targets[t]
  {
  }

  lemma ScansAreLive(db: Db, kept: map<Id, Pipeline>, w: Db)
    requires SparedMeansLive(db, kept, w) && w.scans == db.scans
    requires forall s | s in db.scans :: RefersTo(db.targets, Copr, db.scans[s])
    ensures ScansAfter(w, TARGET_KINDS) ==
            map s | s in db.scans && (db.scans[s].Some? ==> TargetLives(db, kept, TargetRef(Copr, db.scans[s].value)))
              :: db.scans[s]
  {
  }

  lemma LogRunsAreLive(db: Db, kept: map<Id, Pipeline>, w: Db)
    requires SparedMeansLive(db, kept, w) && w.logRuns == db.logRuns
    requires forall r | r in db.logRuns :: LogRunKeys(db.targets, db.groups, db.logRuns[r])
    ensures LogRunsAfter(w, TARGET_KINDS) == map r | r in db.logRuns && LogRunLives(db, kept, db.logRuns[r]) :: db.logRuns[r]
  {
  }

  lemma PairsAreLive(db: Db, kept: map<Id, Pipeline>, w: Db, kind: GroupKind, pairs: set<(Id, Id)>)
    requires SparedMeansLive(db, kept, w) && AssociationKeys(pairs, db.targets, kind)
    ensures PairsAfter(w, TARGET_KINDS, kind, pairs) ==
            set a | a in pairs && TargetLives(db, kept, TargetRef(kind, a.0)) && TargetLives(db, kept, TargetRef(TestRun, a.1))
  {
  }

  lemma SyncPrsAreLive(db: Db, kept: map<Id, Pipeline>, w: Db)
    requires SparedMeansLive(db, kept, w) && w.syncPrs == db.syncPrs && SyncPrKeys(db.syncPrs, db.targets, db.downstreamPrs)
    ensures SyncPrsAfter(w, TARGET_KINDS) == set a | a in db.syncPrs && TargetLives(db, kept, TargetRef(Sync, a.0))
  {
  }

  lemma BeforeTargetsMeansLive(db: Db, age: int)
    requires ForeignKeys(db)
    ensures SparedMeansLive(db, Kept(db, age), BeforeTargets(db, age))
  {
    hide Spared, TargetLives, ForeignKeys, BeforeTargets, Kept;
    forall t | t in db.targets
      ensures Spared(BeforeTargets(db, age), TARGET_KINDS, t.kind, Some(t.id)) == TargetLives(db, Kept(db, age), t)
    {
      SparedIsLive(db, age, t);
    }
  }

  lemma BeforeTargetsAreAll(db: Db, age: int)
    ensures var w := BeforeTargets(db, age);
            && w.targets == db.targets && w.scans == db.scans && w.logRuns == db.logRuns
            && w.tfCopr == db.tfCopr && w.tfKoji == db.tfKoji && w.syncPrs == db.syncPrs
  {
  }

  lemma TargetTablesAreLive(db: Db, age: int)
    requires ForeignKeys(db)
    ensures var w, live := AfterTargets(db, age), LiveRows(db, age);
            && w.targets == live.targets && w.scans == live.scans && w.logRuns == live.logRuns
            && w.tfCopr == live.tfCopr && w.tfKoji == live.tfKoji && w.syncPrs == live.syncPrs
  {
    hide SparedMeansLive, TargetLives, LogRunLives, TargetsAfter, ScansAfter, LogRunsAfter, PairsAfter, SyncPrsAfter,
      AssociationKeys, SyncPrKeys, GroupInUse, ItemInUse, EventInUse, ObjectInUse, RefersTo, LogRunKeys, BeforeTargets,
      Kept, LiveEvents;
    var kept, w := Kept(db, age), BeforeTargets(db, age);
    BeforeTargetsMeansLive(db, age);
    BeforeTargetsAreAll(db, age);
    TargetsAreLive(db, kept, w);
    ScansAreLive(db, kept, w);
    LogRunsAreLive(db, kept, w);
    PairsAreLive(db, kept, w, Copr, db.tfCopr);
    PairsAreLive(db, kept, w, Koji, db.tfKoji);
    SyncPrsAreLive(db, kept, w);
  }

  lemma KindsOfItems()
    ensures forall i: ItemRef :: i.kind in Elements(ITEM_KINDS)
  {
    forall i: ItemRef ensures i.kind in Elements(ITEM_KINDS) {
      assert i.kind == ITEM_KINDS[0] || i.kind == ITEM_KINDS[1];
    }
  }

  lemma KindsOfGroups()
    ensures forall k: GroupKind :: k in Elements(PRUNED_GROUP_KINDS) <==> PrunedGroup(k)
  {
    assert PRUNED_GROUP_KINDS[0] == Copr && PRUNED_GROUP_KINDS[1] == Koji && PRUNED_GROUP_KINDS[2] == TestRun;
    assert PRUNED_GROUP_KINDS[3] == Bodhi && PRUNED_GROUP_KINDS[4] == KojiTag;
  }

  lemma KindsOfObjects()
    ensures forall k: ObjectKind :: k in Elements(SWEPT_OBJECT_KINDS) <==> Swept(k)
  {
    assert SWEPT_OBJECT_KINDS[0] == PullRequest && SWEPT_OBJECT_KINDS[1] == Branch;
    assert SWEPT_OBJECT_KINDS[2] == Release && SWEPT_OBJECT_KINDS[3] == Issue;
  }

  lemma OtherTablesAreLive(db: Db, age: int)
    ensures var w, live := AfterObjects(db, age), LiveRows(db, age);
            w.items == live.items && w.groups == live.groups && w.objects == live.objects
  {
    hide TargetLives, LogRunLives, GroupInUse, ItemInUse, EventInUse, ObjectInUse, Elements, PrunedGroup, Swept,
      TargetsAfter, ScansAfter, LogRunsAfter, PairsAfter, SyncPrsAfter;
    KindsOfItems();
    KindsOfGroups();
    KindsOfObjects();
  }

  lemma StatementsLeaveTheLiveRows(db: Db, age: int)
    requires ForeignKeys(db)
    ensures AfterObjects(db, age) == LiveRows(db, age)
  {
    hide TargetLives, LogRunLives, GroupInUse, ItemInUse, EventInUse, ObjectInUse, Elements, PrunedGroup, Swept,
      TargetsAfter, ScansAfter, LogRunsAfter, PairsAfter, SyncPrsAfter, ForeignKeys;
    TargetTablesAreLive(db, age);
    OtherTablesAreLive(db, age);
  }

  // ---- The transaction ----

  /** After a failed statement PostgreSQL ignores the rest of the transaction. */
  class Transaction {
    var work: Db
    var failed: bool

    constructor (db: Db)
      ensures work == db && !failed
    {
      work, failed := db, false;
    }

    /** A statement fails when it leaves a foreign key without its row. */
    method Execute(next: Db)
      modifies this
      ensures failed == (old(failed) || !ForeignKeys(next))
      ensures work == if failed then old(work) else next
    {
      if !failed {
        if ForeignKeys(next) {
          work := next;
        } else {
          failed := true;
        }
      }
    }

    /** Associations and scans first, then the Copr targets with their Log Detective runs. */
    method SweepCopr()
      requires !failed && ForeignKeys(work)
      modifies this
      ensures !failed && work == PruneKind(old(work), Copr) && ForeignKeys(work)
    {
      TfCoprKeepsKeys(work);
      CoprUnreferenced(work);
      Execute(DeleteTfCoprByCopr(work));
      ScansAndSyncPrsKeepKeys(work);
      Execute(DeleteScans(work));
      TargetsKeepKeys(work, Copr);
      Execute(DeleteTargets(work, Copr));
    }

    method SweepKoji()
      requires !failed && ForeignKeys(work)
      modifies this
      ensures !failed && work == PruneKind(old(work), Koji) && ForeignKeys(work)
    {
      TfKojiKeepsKeys(work);
      Execute(DeleteTfKojiByKoji(work));
      TargetsKeepKeys(work, Koji);
      Execute(DeleteTargets(work, Koji));
    }

    method SweepTests()
      requires !failed && ForeignKeys(work)
      modifies this
      ensures !failed && work == PruneKind(old(work), TestRun) && ForeignKeys(work)
    {
      TfCoprKeepsKeys(work);
      TestsUnreferenced(work);
      Execute(DeleteTfCoprByTest(work));
      TfKojiKeepsKeys(work);
      Execute(DeleteTfKojiByTest(work));
      TargetsKeepKeys(work, TestRun);
      Execute(DeleteTargets(work, TestRun));
    }

    method SweepSync()
      requires !failed && ForeignKeys(work)
      modifies this
      ensures !failed && work == PruneKind(old(work), Sync) && ForeignKeys(work)
    {
      ScansAndSyncPrsKeepKeys(work);
      Execute(DeleteSyncPrs(work));
      TargetsKeepKeys(work, Sync);
      Execute(DeleteTargets(work, Sync));
    }

    method SweepPlainTargets(ghost db: Db, ghost done: set<GroupKind>)
      requires !failed && ForeignKeys(work) && work == PrunedTargets(db, done) && Bodhi !in done && KojiTag !in done
      modifies this
      ensures !failed && work == PrunedTargets(db, done + Elements(PLAIN_TARGET_KINDS)) && ForeignKeys(work)
    {
      hide PrunedTargets, ForeignKeys, DeleteTargets, Orphan;
      assert done + Elements(PLAIN_TARGET_KINDS[..0]) == done;
      for i := 0 to |PLAIN_TARGET_KINDS|
        invariant !failed && ForeignKeys(work)
        invariant work == PrunedTargets(db, done + Elements(PLAIN_TARGET_KINDS[..i]))
      {
        var kind := PLAIN_TARGET_KINDS[i];
        PrunePlain(db, done + Elements(PLAIN_TARGET_KINDS[..i]), kind);
        ElementsGrow(PLAIN_TARGET_KINDS, i);
        assert done + Elements(PLAIN_TARGET_KINDS[..i + 1]) == done + Elements(PLAIN_TARGET_KINDS[..i]) + {kind};
        TargetsKeepKeys(work, kind);
        Execute(DeleteTargets(work, kind));
      }
      assert PLAIN_TARGET_KINDS[..|PLAIN_TARGET_KINDS|] == PLAIN_TARGET_KINDS;
    }

    method SweepTargets()
      requires !failed && ForeignKeys(work)
      modifies this
      ensures !failed && work == PrunedTargets(old(work), TARGET_KINDS) && ForeignKeys(work)
    {
      hide PruneKind, PrunedTargets, ForeignKeys;
      ghost var db := work;
      PruneNothing(db);
      PruneCopr(db, {});
      SweepCopr();
      PruneKoji(db, {} + {Copr});
      SweepKoji();
      PruneTests(db, {} + {Copr} + {Koji});
      SweepTests();
      PruneSync(db, {} + {Copr} + {Koji} + {TestRun});
      SweepSync();
      ghost var done := {} + {Copr} + {Koji} + {TestRun} + {Sync};
      SweepPlainTargets(db, done);
      assert done + Elements(PLAIN_TARGET_KINDS) == TARGET_KINDS;
    }

    method SweepItems()
      requires !failed && ForeignKeys(work)
      modifies this
      ensures !failed && work == PrunedItems(old(work), Elements(ITEM_KINDS)) && ForeignKeys(work)
    {
      ghost var db := work;
      for i := 0 to |ITEM_KINDS|
        invariant !failed && ForeignKeys(work) && work == PrunedItems(db, Elements(ITEM_KINDS[..i]))
      {
        ItemsKeepKeys(work, ITEM_KINDS[i]);
        PruneOneItem(db, Elements(ITEM_KINDS[..i]), ITEM_KINDS[i]);
        ElementsGrow(ITEM_KINDS, i);
        Execute(DeleteItems(work, ITEM_KINDS[i]));
      }
    }

    method SweepGroups()
      requires !failed && ForeignKeys(work) && NoOrphans(work)
      modifies this
      ensures !failed && work == PrunedGroups(old(work), Elements(PRUNED_GROUP_KINDS)) && ForeignKeys(work)
    {
      ghost var db := work;
      for i := 0 to |PRUNED_GROUP_KINDS|
        invariant !failed && ForeignKeys(work) && work == PrunedGroups(db, Elements(PRUNED_GROUP_KINDS[..i]))
      {
        GroupsKeepKeys(work, PRUNED_GROUP_KINDS[i]);
        PruneOneGroup(db, Elements(PRUNED_GROUP_KINDS[..i]), PRUNED_GROUP_KINDS[i]);
        ElementsGrow(PRUNED_GROUP_KINDS, i);
        Execute(DeleteGroups(work, PRUNED_GROUP_KINDS[i]));
      }
    }

    /** Pull requests come first; theirs is the delete that a source-git pair can block. */
    method SweepObjects()
      requires !failed && ForeignKeys(work)
      modifies this
      ensures var all := PrunedObjects(old(work), Elements(SWEPT_OBJECT_KINDS));
              && failed == !(forall l | l in all.prPairs :: PrPairKeys(all.objects, all.prPairs[l]))
              && (!failed ==> work == all && ForeignKeys(work))
    {
      ghost var db := work;
      ghost var blocked := !forall l | l in db.prPairs :: PrPairKeys(DeleteObjects(db, PullRequest).objects, db.prPairs[l]);
      for i := 0 to |SWEPT_OBJECT_KINDS|
        invariant failed == (blocked && i > 0)
        invariant !failed ==> work == PrunedObjects(db, Elements(SWEPT_OBJECT_KINDS[..i])) && ForeignKeys(work)
      {
        ghost var next := Elements(SWEPT_OBJECT_KINDS[..i + 1]);
        assert SWEPT_OBJECT_KINDS[..i + 1][0] == PullRequest;
        forall l | l in db.prPairs
          ensures PrPairKeys(PrunedObjects(db, next).objects, db.prPairs[l]) ==
                  PrPairKeys(DeleteObjects(db, PullRequest).objects, db.prPairs[l])
        {
          PairsSeePullRequests(db, next, db.prPairs[l]);
        }
        if !failed {
          ObjectsKeepKeys(work, SWEPT_OBJECT_KINDS[i]);
          PruneOneObject(db, Elements(SWEPT_OBJECT_KINDS[..i]), SWEPT_OBJECT_KINDS[i]);
          ElementsGrow(SWEPT_OBJECT_KINDS, i);
        }
        Execute(DeleteObjects(work, SWEPT_OBJECT_KINDS[i]));
      }
      assert SWEPT_OBJECT_KINDS[..|SWEPT_OBJECT_KINDS|] == SWEPT_OBJECT_KINDS;
      forall l | l in db.prPairs
        ensures PrPairKeys(PrunedObjects(db, Elements(SWEPT_OBJECT_KINDS)).objects, db.prPairs[l]) ==
                PrPairKeys(DeleteObjects(db, PullRequest).objects, db.prPairs[l])
      {
        assert SWEPT_OBJECT_KINDS[0] == PullRequest;
        PairsSeePullRequests(db, Elements(SWEPT_OBJECT_KINDS), db.prPairs[l]);
      }
    }
  }

  class Database {
    var db: Db

    /** delete_old_data: all statements in one transaction, which commits as a whole or not at all. */
    method DeleteOldData(age: int) returns (committed: bool)
      requires ForeignKeys(db)
      modifies this
      ensures committed == CommitCondition(old(db), age)
      ensures db == if committed then Survivors(old(db), age) else old(db)
      ensures committed ==> forall p :: p in db.pipelines <==>
                p in old(db).pipelines && (old(db).pipelines[p].age.None? || old(db).pipelines[p].age.value < age)
      ensures ForeignKeys(db)
    {
      var transaction := new Transaction(db);
      PipelinesKeepKeys(db, age);
      transaction.Execute(DeletePipelines(transaction.work, age));
      EventsKeepKeys(transaction.work);
      transaction.Execute(DeleteEvents(transaction.work));
      transaction.SweepItems();
      TargetsPrunedLeaveNoOrphans(transaction.work);
      transaction.SweepTargets();
      transaction.SweepGroups();
      transaction.SweepObjects();
      StatementsLeaveTheLiveRows(db, age);
      if !transaction.failed {
        ProjectsKeepKeys(transaction.work);
      }
      transaction.Execute(DeleteProjects(transaction.work));
      committed := !transaction.failed;
      LiveTagObjects(db, age);
      if committed {
        db := transaction.work;
      }
    }
  }

  /** Objects that the sweep does not prune are all among the live rows. */
  lemma LiveTagObjects(db: Db, age: int)
    ensures TagProjectsLive(db, age) <==>
            forall o | o in LiveRows(db, age).objects && !Swept(o.kind) && LiveRows(db, age).objects[o].Some? ::
              Referenced(LiveRows(db, age), None) || Referenced(LiveRows(db, age), LiveRows(db, age).objects[o])
  {
  }
}
