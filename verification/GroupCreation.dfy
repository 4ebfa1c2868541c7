/**
The two guarded create methods as they run with nobody in between, statement by statement over
the table of pipelines.  Each is proved to be the call that the concurrent system is compared with.
*/
module GroupCreation {
  import opened CreateLinearizability
  import opened Options
  import opened PipelineCreation

  /** The call over the columns: which pipeline is linked, and what the clone has. */
  lemma CoprCallOverTheColumns(db: Db, target: Id, package: Option<string>, memory: Option<string>, group: Id, drawn: Id)
    ensures var alone := CallAlone(db, Call(Copr, target, package, memory, group, drawn));
            && alone.0.groups == db.groups + {(Copr, group)}
            && (target !in db.rows ==> alone.0.rows == db.rows && alone.1 == None)
            && (target in db.rows && Copr !in db.rows[target].links ==>
                  && alone.1 == Some(target)
                  && alone.0.rows == db.rows[target := db.rows[target].(links := db.rows[target].links[Copr := group])])
            && (target in db.rows && Copr in db.rows[target].links ==>
                  && alone.1 == Some(drawn) && drawn in alone.0.rows && alone.0.rows == db.rows[drawn := alone.0.rows[drawn]]
                  && var made, source := alone.0.rows[drawn], db.rows[target];
                     && made.event == source.event && made.srpm == source.srpm && made.links == map[Copr := group]
                     && if package.Some? && package.value != "" then made.package == package
                        else if memory.Some? && memory.value != "" then made.package == memory
                        else made.package == source.package)
  {
    if target in db.rows {
      CoprCloneLinks(db.rows[target], group);
    }
  }

  lemma TestRunCallOverTheColumns(db: Db, target: Id, group: Id, drawn: Id)
    ensures var alone := CallAlone(db, Call(TestRun, target, None, None, group, drawn));
            && alone.0.groups == db.groups + {(TestRun, group)}
            && (target !in db.rows ==> alone.0.rows == db.rows && alone.1 == None)
            && (target in db.rows && TestRun !in db.rows[target].links ==>
                  && alone.1 == Some(target)
                  && alone.0.rows == db.rows[target := db.rows[target].(links := db.rows[target].links[TestRun := group])])
            && (target in db.rows && TestRun in db.rows[target].links ==>
                  && alone.1 == Some(drawn) && drawn in alone.0.rows && alone.0.rows == db.rows[drawn := alone.0.rows[drawn]]
                  && var made, source := alone.0.rows[drawn], db.rows[target];
                     && made.event == source.event && made.package == source.package && made.srpm == source.srpm
                     && (forall k :: k in made.links <==> k == TestRun || ((k == Copr || k == Koji) && k in source.links))
                     && made.links[TestRun] == group
                     && (forall k | k in made.links && k != TestRun :: made.links[k] == source.links[k]))
  {
  }

  class Database {
    var rows: map<Id, Row>
    var groups: set<(Kind, Id)>
    /** The sequences behind the primary keys. */
    var nextRow: Id
    var nextGroup: Id

    predicate Valid()
      reads this
    {
      && (forall id | id in rows :: id < nextRow)
      && (forall id, k | id in rows && k in rows[id].links :: rows[id].links[k] < nextGroup)
    }

    /** session.add(group); session.flush() */
    method NewGroup(kind: Kind) returns (group: Id)
      modifies `groups, `nextGroup
      ensures group == old(nextGroup) && nextGroup == old(nextGroup) + 1 && groups == old(groups) + {(kind, group)}
    {
      group := nextGroup;
      nextGroup := nextGroup + 1;
      groups := groups + {(kind, group)};
    }

    /** UPDATE ... SET link = group WHERE id = target AND link IS NULL; how many rows it changed. */
    method UpdateWhereNull(kind: Kind, target: Id, group: Id) returns (updated: nat)
      modifies `rows
      ensures updated == if target in old(rows) && kind !in old(rows)[target].links then 1 else 0
      ensures rows == if updated == 1
                      then old(rows)[target := old(rows)[target].(links := old(rows)[target].links[kind := group])]
                      else old(rows)
    {
      updated := 0;
      if target in rows && kind !in rows[target].links {
        rows := rows[target := rows[target].(links := rows[target].links[kind := group])];
        updated := 1;
      }
    }

    /** PipelineModel.create */
    method CreatePipeline(event: Id, package: Option<string>) returns (id: Id)
      modifies `rows, `nextRow
      ensures id == old(nextRow) && nextRow == old(nextRow) + 1 && rows == old(rows)[id := Blank(event, package)]
    {
      id := nextRow;
      nextRow := nextRow + 1;
      rows := rows[id := Blank(event, package)];
    }

    /** _clone_pipeline_for_new_build_group; `memory` is the package of the model the caller holds. */
    method ClonePipeline(source: Id, memory: Option<string>, package: Option<string>, group: Id) returns (id: Id)
      requires Valid() && source in rows
      modifies `rows, `nextRow
      ensures id == old(nextRow) && nextRow == old(nextRow) + 1
      ensures rows == old(rows)[id := Row(
          old(rows)[source].event,
          if package.Some? && package.value != "" then package
          else if memory.Some? && memory.value != "" then memory else old(rows)[source].package,
          old(rows)[source].srpm, map[Copr := group])]
    {
      id := CreatePipeline(rows[source].event, Or(package, Or(memory, rows[source].package)));
      rows := rows[id := rows[id].(srpm := rows[source].srpm)];
      rows := rows[id := rows[id].(links := rows[id].links[Copr := group])];
    }

    /** query(PipelineModel).filter_by(copr_build_group_id=group).first() */
    method FindByGroup(kind: Kind, group: Id) returns (found: Option<Id>)
      ensures found.Some? ==> found.value in rows && kind in rows[found.value].links && rows[found.value].links[kind] == group
      ensures found.None? ==> forall id | id in rows && kind in rows[id].links :: rows[id].links[kind] != group
    {
      var ids := rows.Keys;
      found := None;
      while ids != {}
        invariant ids <= rows.Keys
        invariant forall id | id in rows && id !in ids && kind in rows[id].links :: rows[id].links[kind] != group
        decreases |ids|
      {
        var id :| id in ids;
        if kind in rows[id].links && rows[id].links[kind] == group {
          return Some(id);
        }
        ids := ids - {id};
      }
    }

    /**
     CoprBuildGroupModel.create; the pipeline is None when the caller gets its own model back.  The
     session may serve an old null, so `seen` may be false for a link that is set.
     */
    method CreateCoprGroup(target: Id, seen: bool, memory: Option<string>, package: Option<string>)
      returns (group: Id, pipeline: Option<Id>)
      requires Valid() && (seen ==> target in rows && Copr in rows[target].links)
      modifies this
      ensures group == old(nextGroup) && Valid()
      ensures (Db(rows, groups), pipeline) ==
              CallAlone(Db(old(rows), old(groups)), Call(Copr, target, package, memory, group, old(nextRow)))
      ensures target !in old(rows) ==> rows == old(rows) && pipeline == None
      ensures target in old(rows) && Copr !in old(rows)[target].links ==>
                && pipeline == Some(target)
                && rows == old(rows)[target := old(rows)[target].(links := old(rows)[target].links[Copr := group])]
      ensures target in old(rows) && Copr in old(rows)[target].links ==>
                && pipeline == Some(old(nextRow)) && old(nextRow) in rows
                && rows == old(rows)[old(nextRow) := rows[old(nextRow)]]
                && var made, source := rows[old(nextRow)], old(rows)[target];
                   && made.event == source.event && made.srpm == source.srpm && made.links == map[Copr := group]
                   && if package.Some? && package.value != "" then made.package == package
                      else if memory.Some? && memory.value != "" then made.package == memory
                      else made.package == source.package
    {
      CoprCallOverTheColumns(Db(rows, groups), target, package, memory, nextGroup, nextRow);
      group := NewGroup(Copr);
      if seen {
        var clone := ClonePipeline(target, memory, package, group);
        return group, Some(clone);
      }
      var updated := UpdateWhereNull(Copr, target, group);
      if updated == 0 && target in rows {
        var clone := ClonePipeline(target, memory, package, group);
      }
      pipeline := FindByGroup(Copr, group);
      assert target in rows ==> pipeline.Some? by {
        var linked := if updated == 1 then target else old(nextRow);
        assert target in rows ==> linked in rows && Copr in rows[linked].links && rows[linked].links[Copr] == group;
      }
    }

    /** The clone that the test-run call inserts in its own transaction. */
    method CloneForTests(source: Id, group: Id) returns (id: Id)
      requires Valid() && source in rows
      modifies `rows, `nextRow
      ensures id == old(nextRow) && nextRow == old(nextRow) + 1
      ensures rows == old(rows)[id := Row(
          old(rows)[source].event, old(rows)[source].package, old(rows)[source].srpm,
          CloneLinks(TestRun, old(rows)[source], group))]
    {
      var locked := rows[source];
      id := nextRow;
      nextRow := nextRow + 1;
      var newRunModel := Blank(locked.event, locked.package);
      newRunModel := newRunModel.(srpm := locked.srpm);
      if Copr in locked.links {
        newRunModel := newRunModel.(links := newRunModel.links[Copr := locked.links[Copr]]);
      }
      if Koji in locked.links {
        newRunModel := newRunModel.(links := newRunModel.links[Koji := locked.links[Koji]]);
      }
      newRunModel := newRunModel.(links := newRunModel.links[TestRun := group]);
      assert newRunModel.links == CloneLinks(TestRun, locked, group);
      rows := rows[id := newRunModel];
    }

    /** TFTTestRunGroupModel.create */
    method CreateTestRunGroup(target: Id) returns (group: Id)
      requires Valid()
      modifies this
      ensures group == old(nextGroup) && Valid()
      ensures Db(rows, groups) ==
              CallAlone(Db(old(rows), old(groups)), Call(TestRun, target, None, None, group, old(nextRow))).0
      ensures target !in old(rows) ==> rows == old(rows)
      ensures target in old(rows) && TestRun !in old(rows)[target].links ==>
                rows == old(rows)[target := old(rows)[target].(links := old(rows)[target].links[TestRun := group])]
      ensures target in old(rows) && TestRun in old(rows)[target].links ==>
                && old(nextRow) in rows && rows == old(rows)[old(nextRow) := rows[old(nextRow)]]
                && var made, source := rows[old(nextRow)], old(rows)[target];
                   && made.event == source.event && made.package == source.package && made.srpm == source.srpm
                   && (forall k :: k in made.links <==> k == TestRun || ((k == Copr || k == Koji) && k in source.links))
                   && made.links[TestRun] == group
                   && (forall k | k in made.links && k != TestRun :: made.links[k] == source.links[k])
    {
      TestRunCallOverTheColumns(Db(rows, groups), target, nextGroup, nextRow);
      group := NewGroup(TestRun);
      var updated := UpdateWhereNull(TestRun, target, group);
      if updated == 0 {
        if target !in rows {
          return;
        }
        var clone := CloneForTests(target, group);
      }
    }
  }
}
