/**
The tables that the retention sweep works on, their foreign keys, and the DELETE statements of
the sweep, each as a function from the tables before to the tables after.
*/
module RetentionSchema {
  import opened Options

  type Id = nat

  /** The groups of targets a pipeline can point to. */
  datatype GroupKind = Copr | Koji | TestRun | Sync | Bodhi | KojiTag | LogDetective

  /** Single rows a pipeline can point to. */
  datatype ItemKind = Srpm | VmImage

  datatype ObjectKind = PullRequest | Branch | Release | Issue | KojiBuildTag | Anitya

  datatype GroupRef = GroupRef(kind: GroupKind, id: Id)
  datatype TargetRef = TargetRef(kind: GroupKind, id: Id)
  datatype ItemRef = ItemRef(kind: ItemKind, id: Id)
  datatype ObjectRef = ObjectRef(kind: ObjectKind, id: Id)

  /** `age` is null when the datetime is; a missing map entry is a null column. */
  datatype Pipeline = Pipeline(
    age: Option<int>, event: Option<Id>, items: map<ItemKind, Id>, groups: map<GroupKind, Id>)

  /** `subject` is a plain number, not a foreign key. */
  datatype Event = Event(kind: ObjectKind, subject: Option<Id>)

  datatype LogDetectiveRun = LogDetectiveRun(copr: Option<Id>, koji: Option<Id>, group: Option<Id>)

  datatype PrPair = PrPair(source: Option<Id>, distGit: Option<Id>)

  datatype Db = Db(
    pipelines: map<Id, Pipeline>,
    events: map<Id, Event>,
    items: set<ItemRef>,
    groups: set<GroupRef>,
    targets: map<TargetRef, Option<Id>>,          // the group of each target
    scans: map<Id, Option<Id>>,                   // the Copr target of each scan
    logRuns: map<Id, LogDetectiveRun>,
    tfCopr: set<(Id, Id)>,                        // Copr target, test run target
    tfKoji: set<(Id, Id)>,                        // Koji target, test run target
    syncPrs: set<(Id, Id)>,                       // sync release target, downstream pull request
    objects: map<ObjectRef, Option<Id>>,          // the git project of each event object (none for Anitya)
    authIssues: map<Id, Option<Id>>,              // the git project of each row
    downstreamPrs: map<Id, Option<Id>>,           // the git project of each row
    prPairs: map<Id, PrPair>,
    projects: set<Id>)

  // ---- Foreign keys, table by table ----

  predicate PipelineKeys(events: map<Id, Event>, items: set<ItemRef>, groups: set<GroupRef>, p: Pipeline) {
    && (p.event.Some? ==> p.event.value in events)
    && (forall k | k in p.items :: ItemRef(k, p.items[k]) in items)
    && (forall k | k in p.groups :: GroupRef(k, p.groups[k]) in groups)
  }

  predicate RefersTo(targets: map<TargetRef, Option<Id>>, kind: GroupKind, target: Option<Id>) {
    target.Some? ==> TargetRef(kind, target.value) in targets
  }

  predicate LogRunKeys(targets: map<TargetRef, Option<Id>>, groups: set<GroupRef>, r: LogDetectiveRun) {
    && RefersTo(targets, Copr, r.copr) && RefersTo(targets, Koji, r.koji)
    && (r.group.Some? ==> GroupRef(LogDetective, r.group.value) in groups)
  }

  predicate PrPairKeys(objects: map<ObjectRef, Option<Id>>, l: PrPair) {
    && (l.source.Some? ==> ObjectRef(PullRequest, l.source.value) in objects)
    && (l.distGit.Some? ==> ObjectRef(PullRequest, l.distGit.value) in objects)
  }

  predicate TargetKeys(targets: map<TargetRef, Option<Id>>, groups: set<GroupRef>) {
    forall t | t in targets :: targets[t].Some? ==> GroupRef(t.kind, targets[t].value) in groups
  }

  predicate AssociationKeys(pairs: set<(Id, Id)>, targets: map<TargetRef, Option<Id>>, kind: GroupKind) {
    forall a | a in pairs :: TargetRef(kind, a.0) in targets && TargetRef(TestRun, a.1) in targets
  }

  predicate SyncPrKeys(pairs: set<(Id, Id)>, targets: map<TargetRef, Option<Id>>, prs: map<Id, Option<Id>>) {
    forall a | a in pairs :: TargetRef(Sync, a.0) in targets && a.1 in prs
  }

  predicate ProjectKeys<K>(rows: map<K, Option<Id>>, projects: set<Id>) {
    forall r | r in rows :: rows[r].Some? ==> rows[r].value in projects
  }

  /** Every foreign key refers to an existing row or is null. */
  predicate ForeignKeys(db: Db) {
    && (forall p | p in db.pipelines :: PipelineKeys(db.events, db.items, db.groups, db.pipelines[p]))
    && TargetKeys(db.targets, db.groups)
    && (forall s | s in db.scans :: RefersTo(db.targets, Copr, db.scans[s]))
    && (forall r | r in db.logRuns :: LogRunKeys(db.targets, db.groups, db.logRuns[r]))
    && AssociationKeys(db.tfCopr, db.targets, Copr) && AssociationKeys(db.tfKoji, db.targets, Koji)
    && SyncPrKeys(db.syncPrs, db.targets, db.downstreamPrs)
    && (forall l | l in db.prPairs :: PrPairKeys(db.objects, db.prPairs[l]))
    && ProjectKeys(db.objects, db.projects) && ProjectKeys(db.authIssues, db.projects)
    && ProjectKeys(db.downstreamPrs, db.projects)
  }

  // ---- Who refers to what ----

  predicate LinksGroup(p: Pipeline, g: GroupRef) {
    g.kind in p.groups && p.groups[g.kind] == g.id
  }

  predicate LinksItem(p: Pipeline, i: ItemRef) {
    i.kind in p.items && p.items[i.kind] == i.id
  }

  predicate GroupInUse(pipelines: map<Id, Pipeline>, g: GroupRef) {
    exists p :: p in pipelines && LinksGroup(pipelines[p], g)
  }

  predicate ItemInUse(pipelines: map<Id, Pipeline>, i: ItemRef) {
    exists p :: p in pipelines && LinksItem(pipelines[p], i)
  }

  predicate EventInUse(pipelines: map<Id, Pipeline>, e: Id) {
    exists p :: p in pipelines && pipelines[p].event == Some(e)
  }

  predicate ObjectInUse(events: map<Id, Event>, o: ObjectRef) {
    exists e :: e in events && events[e] == Event(o.kind, Some(o.id))
  }

  /** A target is an orphan when its group exists and no pipeline points to that group. */
  predicate OrphanIn(
    pipelines: map<Id, Pipeline>, groups: set<GroupRef>, targets: map<TargetRef, Option<Id>>, t: TargetRef)
  {
    && t in targets && targets[t].Some?
    && GroupRef(t.kind, targets[t].value) in groups
    && !GroupInUse(pipelines, GroupRef(t.kind, targets[t].value))
  }

  predicate Orphan(db: Db, t: TargetRef) {
    OrphanIn(db.pipelines, db.groups, db.targets, t)
  }

  // ---- The statements ----

  /** func.age(datetime) >= age: a null datetime never qualifies. */
  predicate Outdated(p: Pipeline, age: int) {
    p.age.Some? && p.age.value >= age
  }

  function DeletePipelines(db: Db, age: int): Db {
    db.(pipelines := map p | p in db.pipelines && !Outdated(db.pipelines[p], age) :: db.pipelines[p])
  }

  function DeleteEvents(db: Db): Db {
    db.(events := map e | e in db.events && EventInUse(db.pipelines, e) :: db.events[e])
  }

  function DeleteItems(db: Db, kind: ItemKind): Db {
    db.(items := set i | i in db.items && (i.kind == kind ==> ItemInUse(db.pipelines, i)))
  }

  function DeleteTfCoprByCopr(db: Db): Db {
    db.(tfCopr := set a | a in db.tfCopr && !Orphan(db, TargetRef(Copr, a.0)))
  }

  function DeleteTfCoprByTest(db: Db): Db {
    db.(tfCopr := set a | a in db.tfCopr && !Orphan(db, TargetRef(TestRun, a.1)))
  }

  function DeleteTfKojiByKoji(db: Db): Db {
    db.(tfKoji := set a | a in db.tfKoji && !Orphan(db, TargetRef(Koji, a.0)))
  }

  function DeleteTfKojiByTest(db: Db): Db {
    db.(tfKoji := set a | a in db.tfKoji && !Orphan(db, TargetRef(TestRun, a.1)))
  }

  function DeleteSyncPrs(db: Db): Db {
    db.(syncPrs := set a | a in db.syncPrs && !Orphan(db, TargetRef(Sync, a.0)))
  }

  function DeleteScans(db: Db): Db {
    db.(scans := map s | s in db.scans && (db.scans[s].Some? ==> !Orphan(db, TargetRef(Copr, db.scans[s].value)))
                 :: db.scans[s])
  }

  /** ON DELETE CASCADE takes the Log Detective runs of deleted Copr and Koji targets along. */
  predicate Cascades(db: Db, r: LogDetectiveRun, kind: GroupKind) {
    || (kind == Copr && r.copr.Some? && Orphan(db, TargetRef(Copr, r.copr.value)))
    || (kind == Koji && r.koji.Some? && Orphan(db, TargetRef(Koji, r.koji.value)))
  }

  function DeleteTargets(db: Db, kind: GroupKind): Db {
    db.(targets := map t | t in db.targets && (t.kind == kind ==> !Orphan(db, t)) :: db.targets[t],
        logRuns := map r | r in db.logRuns && !Cascades(db, db.logRuns[r], kind) :: db.logRuns[r])
  }

  predicate HasTarget(db: Db, g: GroupRef) {
    exists t :: t in db.targets && t.kind == g.kind && db.targets[t] == Some(g.id)
  }

  function DeleteGroups(db: Db, kind: GroupKind): Db {
    db.(groups := set g | g in db.groups && (g.kind == kind ==> HasTarget(db, g) || GroupInUse(db.pipelines, g)))
  }

  function DeleteObjects(db: Db, kind: ObjectKind): Db {
    db.(objects := map o | o in db.objects && (o.kind == kind ==> ObjectInUse(db.events, o)) :: db.objects[o])
  }

  /** The object kinds whose tables the sweep prunes and whose projects it counts as referenced. */
  predicate Swept(kind: ObjectKind) {
    kind == PullRequest || kind == Branch || kind == Release || kind == Issue
  }

  /** `project` (a null included) is in the union of the referenced project ids. */
  predicate Referenced(db: Db, project: Option<Id>) {
    || (exists o :: o in db.objects && Swept(o.kind) && db.objects[o] == project)
    || (exists r :: r in db.authIssues && db.authIssues[r] == project)
    || (exists r :: r in db.downstreamPrs && db.downstreamPrs[r] == project)
  }

  /** id NOT IN (...) is true of nothing as soon as the list holds a null. */
  function DeleteProjects(db: Db): Db {
    db.(projects := set p | p in db.projects && (Referenced(db, None) || Referenced(db, Some(p))))
  }
}
