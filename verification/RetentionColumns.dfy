/**
The retention sweep table by table, read off the columns of the tables before it: which rows it
leaves, and when it commits.
*/
module RetentionColumns {
  import opened Options
  import opened RetentionSchema
  import opened RetentionSweep

  /** Exactly the pipelines younger than the limit stay, and those without a datetime. */
  lemma PipelineSurvivesExactlyWhen(db: Db, age: int, p: Id)
    ensures p in Survivors(db, age).pipelines <==>
            p in db.pipelines && (db.pipelines[p].age.None? || db.pipelines[p].age.value < age)
    ensures p in Survivors(db, age).pipelines ==> Survivors(db, age).pipelines[p] == db.pipelines[p]
  {
  }

  /** An event stays exactly when such a pipeline belongs to it. */
  lemma EventSurvivesExactlyWhen(db: Db, age: int, e: Id)
    ensures e in Survivors(db, age).events <==>
            && e in db.events
            && exists p :: p in db.pipelines && (db.pipelines[p].age.None? || db.pipelines[p].age.value < age)
                           && db.pipelines[p].event == Some(e)
    ensures e in Survivors(db, age).events ==> Survivors(db, age).events[e] == db.events[e]
  {
    var kept := Kept(db, age);
    if p :| p in db.pipelines && (db.pipelines[p].age.None? || db.pipelines[p].age.value < age) && db.pipelines[p].event == Some(e) {
      assert p in kept && kept[p].event == Some(e);
    }
  }

  /** An SRPM or an image stays exactly when such a pipeline points to it. */
  lemma ItemSurvivesExactlyWhen(db: Db, age: int, i: ItemRef)
    ensures i in Survivors(db, age).items <==>
            && i in db.items
            && exists p :: p in db.pipelines && (db.pipelines[p].age.None? || db.pipelines[p].age.value < age)
                           && i.kind in db.pipelines[p].items && db.pipelines[p].items[i.kind] == i.id
  {
    var kept := Kept(db, age);
    if p :| p in db.pipelines && (db.pipelines[p].age.None? || db.pipelines[p].age.value < age)
            && i.kind in db.pipelines[p].items && db.pipelines[p].items[i.kind] == i.id {
      assert p in kept && LinksItem(kept[p], i);
    }
  }

  /** So does a group, except that sync-release and Log Detective groups always stay. */
  lemma GroupSurvivesExactlyWhen(db: Db, age: int, g: GroupRef)
    ensures g in Survivors(db, age).groups <==>
            && g in db.groups
            && (|| g.kind == Sync || g.kind == LogDetective
                || exists p :: p in db.pipelines && (db.pipelines[p].age.None? || db.pipelines[p].age.value < age)
                               && g.kind in db.pipelines[p].groups && db.pipelines[p].groups[g.kind] == g.id)
  {
    var kept := Kept(db, age);
    if p :| p in db.pipelines && (db.pipelines[p].age.None? || db.pipelines[p].age.value < age)
            && g.kind in db.pipelines[p].groups && db.pipelines[p].groups[g.kind] == g.id {
      assert p in kept && LinksGroup(kept[p], g);
    }
  }

  /** A target stays exactly when its group is null or such a pipeline points to its group. */
  lemma TargetSurvivesExactlyWhen(db: Db, age: int, t: TargetRef)
    ensures t in Survivors(db, age).targets <==>
            && t in db.targets
            && (|| t.kind == LogDetective || db.targets[t] == None
                || exists p :: p in db.pipelines && (db.pipelines[p].age.None? || db.pipelines[p].age.value < age)
                               && t.kind in db.pipelines[p].groups && db.targets[t] == Some(db.pipelines[p].groups[t.kind]))
    ensures t in Survivors(db, age).targets ==> Survivors(db, age).targets[t] == db.targets[t]
  {
    var kept := Kept(db, age);
    if p :| p in db.pipelines && (db.pipelines[p].age.None? || db.pipelines[p].age.value < age)
            && t in db.targets && t.kind in db.pipelines[p].groups && db.targets[t] == Some(db.pipelines[p].groups[t.kind]) {
      assert p in kept && LinksGroup(kept[p], GroupRef(t.kind, db.targets[t].value));
    }
  }

  lemma LivesExactlyWhen(db: Db, age: int, t: TargetRef)
    ensures t in Survivors(db, age).targets <==> TargetLives(db, Kept(db, age), t)
  {
    hide Kept, GroupInUse, Referenced;
  }

  /** What hangs on targets stays exactly as long as all of them do. */
  lemma DependentsSurviveExactlyWhen(db: Db, age: int)
    requires ForeignKeys(db)
    ensures var after := Survivors(db, age);
            && (forall c :: c in after.scans <==>
                  c in db.scans && (db.scans[c].Some? ==> TargetRef(Copr, db.scans[c].value) in after.targets))
            && (forall r :: r in after.logRuns <==>
                  && r in db.logRuns
                  && (db.logRuns[r].copr.Some? ==> TargetRef(Copr, db.logRuns[r].copr.value) in after.targets)
                  && (db.logRuns[r].koji.Some? ==> TargetRef(Koji, db.logRuns[r].koji.value) in after.targets))
            && (forall a :: a in after.syncPrs <==> a in db.syncPrs && TargetRef(Sync, a.0) in after.targets)
            && (forall c | c in after.scans :: after.scans[c] == db.scans[c])
            && (forall r | r in after.logRuns :: after.logRuns[r] == db.logRuns[r])
  {
    var after := Survivors(db, age);
    forall t ensures t in after.targets <==> TargetLives(db, Kept(db, age), t) {
      LivesExactlyWhen(db, age, t);
    }
    hide Kept, TargetLives, Referenced;
  }

  /** An event object stays exactly when a surviving event is about it; tags and Anitya projects always do. */
  lemma ObjectSurvivesExactlyWhen(db: Db, age: int, o: ObjectRef)
    ensures var after := Survivors(db, age);
            && (o in after.objects <==>
                 && o in db.objects
                 && (|| o.kind == KojiBuildTag || o.kind == Anitya
                     || exists e :: e in after.events && after.events[e].kind == o.kind && after.events[e].subject == Some(o.id)))
            && (o in after.objects ==> after.objects[o] == db.objects[o])
  {
    hide Kept, Referenced;
    var events := Survivors(db, age).events;
    if e :| e in events && events[e].kind == o.kind && events[e].subject == Some(o.id) {
      assert events[e] == Event(o.kind, Some(o.id));
    }
  }

  /**
  A git project stays exactly when a surviving pull request, branch, release or issue refers to it,
  or a row of one of the two tables that are not pruned; or when any of these has no project.
  */
  lemma ProjectSurvivesExactlyWhen(db: Db, age: int, q: Id)
    ensures var after := Survivors(db, age);
            q in after.projects <==>
              && q in db.projects
              && (|| (exists o :: o in after.objects && o.kind in {PullRequest, Branch, Release, Issue}
                                  && (after.objects[o] == Some(q) || after.objects[o] == None))
                  || (exists r :: r in db.authIssues && (db.authIssues[r] == Some(q) || db.authIssues[r] == None))
                  || (exists r :: r in db.downstreamPrs && (db.downstreamPrs[r] == Some(q) || db.downstreamPrs[r] == None)))
    ensures var after := Survivors(db, age);
            after.authIssues == db.authIssues && after.downstreamPrs == db.downstreamPrs && after.prPairs == db.prPairs
  {
    hide Kept, TargetLives, LogRunLives, ObjectInUse, LiveEvents, GroupInUse, ItemInUse;
    var live, after := LiveRows(db, age), Survivors(db, age);
    assert live.objects == after.objects && live.authIssues == db.authIssues && live.downstreamPrs == db.downstreamPrs;
  }

  /**
  The sweep commits exactly when both ends of every source-git pair survive and no Koji tag or
  Anitya project is in a git project that goes.
  */
  lemma SweepCommitsExactlyWhen(db: Db, age: int)
    requires ForeignKeys(db)
    ensures var after := Survivors(db, age);
            CommitCondition(db, age) <==>
              && (forall l | l in db.prPairs ::
                    && (db.prPairs[l].source.Some? ==> ObjectRef(PullRequest, db.prPairs[l].source.value) in after.objects)
                    && (db.prPairs[l].distGit.Some? ==> ObjectRef(PullRequest, db.prPairs[l].distGit.value) in after.objects))
              && (forall o | o in db.objects && (o.kind == KojiBuildTag || o.kind == Anitya) && db.objects[o].Some? ::
                    db.objects[o].value in after.projects)
  {
    hide Kept, TargetLives, LogRunLives, ObjectInUse, LiveEvents, GroupInUse, ItemInUse;
  }

  /** The foreign keys, column by column. */
  lemma KeysHoldExactlyWhen(db: Db)
    ensures ForeignKeys(db) <==>
      && (forall p | p in db.pipelines ::
            && (db.pipelines[p].event.Some? ==> db.pipelines[p].event.value in db.events)
            && (forall k | k in db.pipelines[p].items :: ItemRef(k, db.pipelines[p].items[k]) in db.items)
            && (forall k | k in db.pipelines[p].groups :: GroupRef(k, db.pipelines[p].groups[k]) in db.groups))
      && (forall t | t in db.targets && db.targets[t].Some? :: GroupRef(t.kind, db.targets[t].value) in db.groups)
      && (forall c | c in db.scans && db.scans[c].Some? :: TargetRef(Copr, db.scans[c].value) in db.targets)
      && (forall r | r in db.logRuns ::
            && (db.logRuns[r].copr.Some? ==> TargetRef(Copr, db.logRuns[r].copr.value) in db.targets)
            && (db.logRuns[r].koji.Some? ==> TargetRef(Koji, db.logRuns[r].koji.value) in db.targets)
            && (db.logRuns[r].group.Some? ==> GroupRef(LogDetective, db.logRuns[r].group.value) in db.groups))
      && (forall a | a in db.tfCopr :: TargetRef(Copr, a.0) in db.targets && TargetRef(TestRun, a.1) in db.targets)
      && (forall a | a in db.tfKoji :: TargetRef(Koji, a.0) in db.targets && TargetRef(TestRun, a.1) in db.targets)
      && (forall a | a in db.syncPrs :: TargetRef(Sync, a.0) in db.targets && a.1 in db.downstreamPrs)
      && (forall l | l in db.prPairs ::
            && (db.prPairs[l].source.Some? ==> ObjectRef(PullRequest, db.prPairs[l].source.value) in db.objects)
            && (db.prPairs[l].distGit.Some? ==> ObjectRef(PullRequest, db.prPairs[l].distGit.value) in db.objects))
      && (forall o | o in db.objects && db.objects[o].Some? :: db.objects[o].value in db.projects)
      && (forall r | r in db.authIssues && db.authIssues[r].Some? :: db.authIssues[r].value in db.projects)
      && (forall r | r in db.downstreamPrs && db.downstreamPrs[r].Some? :: db.downstreamPrs[r].value in db.projects)
  {
  }
}
