/**
The migration that moves commit_sha from five kinds of items to the events behind them, and its
downgrade.  Both collect rows with joins over pipelines and then write them one by one, so that
the last row for a key wins.
*/
module CommitShaMigration {
  import opened Listings
  import opened Options

  type Id = nat

  datatype Kind = Koji | Srpm | Copr | TestRun | VmImage

  datatype Item = Item(kind: Kind, id: Id)

  /** `links` has the id of a group for grouped kinds and of the item itself for the other two. */
  datatype Pipeline = Pipeline(event: Option<Id>, links: map<Kind, Id>)

  /** A row of a join: an item and a pipeline that reaches it. */
  datatype Join = Join(pipeline: Id, item: Item)

  /** UPDATE ... SET commit_sha = sha WHERE id = key; no row has a null id. */
  datatype Write<K> = Write(key: Option<K>, sha: Option<string>)

  predicate Grouped(kind: Kind) {
    kind != Srpm && kind != VmImage
  }

  /** `groups` has the group column of every item. */
  predicate Reaches(pipeline: Pipeline, groups: map<Item, Option<Id>>, i: Item) {
    && i in groups && i.kind in pipeline.links
    && if Grouped(i.kind) then groups[i] == Some(pipeline.links[i.kind]) else i.id == pipeline.links[i.kind]
  }

  /** The rows of the query for one kind. */
  function JoinsOf(pipelines: map<Id, Pipeline>, groups: map<Item, Option<Id>>, kind: Kind): set<Join> {
    set p, i | p in pipelines && i in groups && i.kind == kind && Reaches(pipelines[p], groups, i) :: Join(p, i)
  }

  /** The downgrade joins the events as well, so pipelines without one do not count. */
  function EventJoinsOf(pipelines: map<Id, Pipeline>, groups: map<Item, Option<Id>>, kind: Kind): set<Join> {
    set j | j in JoinsOf(pipelines, groups, kind) && pipelines[j.pipeline].event.Some?
  }

  /**
  The rows of the five queries: a Koji, Copr or test-run target is joined through its group, an
  SRPM or an image by its own id.
  */
  lemma RowsOfTheQueries(pipelines: map<Id, Pipeline>, groups: map<Item, Option<Id>>, kind: Kind, p: Id, i: Item)
    ensures Join(p, i) in JoinsOf(pipelines, groups, kind) <==>
            && p in pipelines && i in groups && i.kind == kind && kind in pipelines[p].links
            && (kind == Koji || kind == Copr || kind == TestRun ==> groups[i] == Some(pipelines[p].links[kind]))
            && (kind == Srpm || kind == VmImage ==> pipelines[p].links[kind] == i.id)
    ensures Join(p, i) in EventJoinsOf(pipelines, groups, kind) <==>
            Join(p, i) in JoinsOf(pipelines, groups, kind) && p in pipelines && pipelines[p].event.Some?
  {
  }

  /** The answers to the five queries, in the order they are asked. */
  datatype Answers = Answers(koji: seq<Join>, srpm: seq<Join>, copr: seq<Join>, testRun: seq<Join>, vmImage: seq<Join>)
  {
    function Of(kind: Kind): seq<Join> {
      match kind
      case Koji => koji
      case Srpm => srpm
      case Copr => copr
      case TestRun => testRun
      case VmImage => vmImage
    }

    function All(): seq<Join> {
      koji + srpm + copr + testRun + vmImage
    }
  }

  ghost predicate AnswersUp(answers: Answers, pipelines: map<Id, Pipeline>, groups: map<Item, Option<Id>>) {
    forall kind :: Lists(answers.Of(kind), JoinsOf(pipelines, groups, kind))
  }

  ghost predicate AnswersDown(answers: Answers, pipelines: map<Id, Pipeline>, groups: map<Item, Option<Id>>) {
    forall kind :: Lists(answers.Of(kind), EventJoinsOf(pipelines, groups, kind))
  }

  // ---- Writes ----

  function Apply<K>(writes: seq<Write<K>>, table: map<K, Option<string>>): map<K, Option<string>> {
    if writes == [] then table else
      var before, w := Apply(writes[..|writes| - 1], table), writes[|writes| - 1];
      if w.key.Some? && w.key.value in table then before[w.key.value := w.sha] else before
  }

  lemma {:induction false} ApplyKeepsKeys<K>(writes: seq<Write<K>>, table: map<K, Option<string>>)
    ensures Apply(writes, table).Keys == table.Keys
  {
    if writes != [] {
      ApplyKeepsKeys(writes[..|writes| - 1], table);
    }
  }

  lemma {:induction false} ApplyConcat<K>(first: seq<Write<K>>, second: seq<Write<K>>, table: map<K, Option<string>>)
    ensures Apply(first + second, table) == Apply(second, Apply(first, table))
  {
    ApplyKeepsKeys(first, table);
    if second == [] {
      assert first + second == first;
    } else {
      assert (first + second)[..|first + second| - 1] == first + second[..|second| - 1];
      ApplyConcat(first, second[..|second| - 1], table);
    }
  }

  /** The value of a key is the one of its last write. */
  lemma {:induction false} LastWriteWins<K>(writes: seq<Write<K>>, table: map<K, Option<string>>, n: nat, key: K)
    requires n < |writes| && writes[n].key == Some(key) && key in table
    requires forall m | n < m < |writes| :: writes[m].key != Some(key)
    ensures key in Apply(writes, table) && Apply(writes, table)[key] == writes[n].sha
  {
    ApplyKeepsKeys(writes[..|writes| - 1], table);
    if n < |writes| - 1 {
      LastWriteWins(writes[..|writes| - 1], table, n, key);
    }
  }

  /** A key that is written gets one of the values written to it, and any other key keeps its value. */
  lemma {:induction false} SomeWriteWins<K>(writes: seq<Write<K>>, table: map<K, Option<string>>, key: K)
    requires key in table
    ensures key in Apply(writes, table)
    ensures (exists n | 0 <= n < |writes| :: writes[n].key == Some(key) && writes[n].sha == Apply(writes, table)[key])
         || (Apply(writes, table)[key] == table[key] && forall n | 0 <= n < |writes| :: writes[n].key != Some(key))
  {
    if writes != [] {
      var rest := writes[..|writes| - 1];
      SomeWriteWins(rest, table, key);
      assert forall n | 0 <= n < |rest| :: writes[n] == rest[n];
    }
  }

  // ---- The rows that upgrade and downgrade write ----

  predicate Known(joins: seq<Join>, pipelines: map<Id, Pipeline>, shas: map<Item, Option<string>>) {
    forall j | j in joins :: j.pipeline in pipelines && j.item in shas
  }

  function UpWrites(joins: seq<Join>, pipelines: map<Id, Pipeline>, shas: map<Item, Option<string>>): seq<Write<Id>>
    requires Known(joins, pipelines, shas)
  {
    seq(|joins|, n requires 0 <= n < |joins| =>
      assert joins[n] in joins; Write(pipelines[joins[n].pipeline].event, shas[joins[n].item]))
  }

  /** Every join has a pipeline with an event; the foreign key says that the event exists. */
  predicate HaveEvents(joins: seq<Join>, pipelines: map<Id, Pipeline>, events: map<Id, Option<string>>) {
    forall j | j in joins ::
      j.pipeline in pipelines && pipelines[j.pipeline].event.Some? && pipelines[j.pipeline].event.value in events
  }

  function DownWrites(joins: seq<Join>, pipelines: map<Id, Pipeline>, events: map<Id, Option<string>>): seq<Write<Item>>
    requires HaveEvents(joins, pipelines, events)
  {
    seq(|joins|, n requires 0 <= n < |joins| =>
      assert joins[n] in joins; Write(Some(joins[n].item), events[pipelines[joins[n].pipeline].event.value]))
  }

  function Nulls<K>(keys: set<K>): (table: map<K, Option<string>>)
    ensures table.Keys == keys
  {
    map k | k in keys :: None
  }

  /** Every link of a pipeline to an event refers to a row. */
  predicate EventsExist(pipelines: map<Id, Pipeline>, events: set<Id>) {
    forall p | p in pipelines && pipelines[p].event.Some? :: pipelines[p].event.value in events
  }

  class Database {
    var pipelines: map<Id, Pipeline>
    var groups: map<Item, Option<Id>>
    /** The column commit_sha of the items, null where the column does not exist. */
    var shas: map<Item, Option<string>>
    /** The column commit_sha of the events, null where the column does not exist. */
    var events: map<Id, Option<string>>

    ghost predicate Valid()
      reads this
    {
      shas.Keys == groups.Keys && EventsExist(pipelines, events.Keys)
    }

    /** The loop of the upgrade over all rows. */
    method Stamp(rows: seq<Write<Id>>)
      modifies `events
      ensures events == Apply(rows, old(events))
    {
      for n := 0 to |rows|
        invariant events == Apply(rows[..n], old(events))
      {
        ApplyKeepsKeys(rows[..n], old(events));
        assert rows[..n + 1][..n] == rows[..n];
        if rows[n].key.Some? && rows[n].key.value in events {
          events := events[rows[n].key.value := rows[n].sha];
        }
      }
      assert rows[..|rows|] == rows;
    }

    method Upgrade(answers: Answers)
      requires Valid() && AnswersUp(answers, pipelines, groups)
      modifies `shas, `events
      ensures Valid()
      ensures Known(answers.All(), pipelines, old(shas))
      ensures events == Apply(UpWrites(answers.All(), pipelines, old(shas)), Nulls(old(events).Keys))
      ensures shas == Nulls(old(shas).Keys)
    {
      JoinsAreKnown(answers, pipelines, groups);
      // add_column
      events := Nulls(events.Keys);
      var rows := UpWrites(answers.koji, pipelines, shas);
      rows := rows + UpWrites(answers.srpm, pipelines, shas);
      rows := rows + UpWrites(answers.copr, pipelines, shas);
      rows := rows + UpWrites(answers.testRun, pipelines, shas);
      rows := rows + UpWrites(answers.vmImage, pipelines, shas);
      assert rows == UpWrites(answers.All(), pipelines, shas);
      Stamp(rows);
      ApplyKeepsKeys(rows, Nulls(old(events).Keys));
      // drop_column
      shas := Nulls(shas.Keys);
    }

    /** The query for one kind and the loop over its rows. */
    method Restore(joins: seq<Join>)
      requires HaveEvents(joins, pipelines, events)
      modifies `shas
      ensures shas == Apply(DownWrites(joins, pipelines, events), old(shas))
    {
      var rows := DownWrites(joins, pipelines, events);
      for n := 0 to |rows|
        invariant shas == Apply(rows[..n], old(shas))
      {
        ApplyKeepsKeys(rows[..n], old(shas));
        assert rows[..n + 1][..n] == rows[..n];
        if rows[n].key.Some? && rows[n].key.value in shas {
          shas := shas[rows[n].key.value := rows[n].sha];
        }
      }
      assert rows[..|rows|] == rows;
    }

    method Downgrade(answers: Answers)
      requires Valid() && AnswersDown(answers, pipelines, groups)
      modifies `shas, `events
      ensures Valid()
      ensures HaveEvents(answers.All(), pipelines, old(events))
      ensures shas == Apply(DownWrites(answers.All(), pipelines, old(events)), Nulls(old(shas).Keys))
      ensures events == Nulls(old(events).Keys)
    {
      hide DownWrites, Apply, AnswersDown, HaveEvents;
      JoinsHaveEvents(answers, pipelines, groups, events);
      // add_column
      shas := Nulls(shas.Keys);
      ghost var nulls := shas;
      var a := answers;
      Restore(a.koji);
      Restore(a.srpm);
      DownConcat(a.koji, a.srpm, pipelines, events, nulls);
      Restore(a.copr);
      DownConcat(a.koji + a.srpm, a.copr, pipelines, events, nulls);
      Restore(a.testRun);
      DownConcat(a.koji + a.srpm + a.copr, a.testRun, pipelines, events, nulls);
      Restore(a.vmImage);
      DownConcat(a.koji + a.srpm + a.copr + a.testRun, a.vmImage, pipelines, events, nulls);
      ApplyKeepsKeys(DownWrites(a.All(), pipelines, events), nulls);
      // drop_column
      events := Nulls(events.Keys);
    }
  }

  lemma InAnswers(answers: Answers, j: Join)
    ensures j in answers.All() <==> exists kind :: j in answers.Of(kind)
  {
    assert j in answers.All() ==> j in answers.Of(Koji) || j in answers.Of(Srpm) || j in answers.Of(Copr)
                                  || j in answers.Of(TestRun) || j in answers.Of(VmImage);
  }

  lemma JoinsAreKnown(answers: Answers, pipelines: map<Id, Pipeline>, groups: map<Item, Option<Id>>)
    requires AnswersUp(answers, pipelines, groups)
    ensures forall shas: map<Item, Option<string>> | shas.Keys == groups.Keys :: Known(answers.All(), pipelines, shas)
  {
    forall j | j in answers.All() ensures j.pipeline in pipelines && j.item in groups {
      InAnswers(answers, j);
    }
  }

  lemma JoinsHaveEvents(
    answers: Answers, pipelines: map<Id, Pipeline>, groups: map<Item, Option<Id>>, events: map<Id, Option<string>>)
    requires AnswersDown(answers, pipelines, groups) && EventsExist(pipelines, events.Keys)
    ensures HaveEvents(answers.All(), pipelines, events)
  {
    forall j | j in answers.All()
      ensures j.pipeline in pipelines && pipelines[j.pipeline].event.Some? && pipelines[j.pipeline].event.value in events
    {
      InAnswers(answers, j);
    }
  }

  lemma DownConcat(
    first: seq<Join>, second: seq<Join>, pipelines: map<Id, Pipeline>, events: map<Id, Option<string>>,
    table: map<Item, Option<string>>)
    requires HaveEvents(first + second, pipelines, events)
    ensures HaveEvents(first, pipelines, events) && HaveEvents(second, pipelines, events)
    ensures Apply(DownWrites(first + second, pipelines, events), table) ==
            Apply(DownWrites(second, pipelines, events), Apply(DownWrites(first, pipelines, events), table))
  {
    assert forall j | j in first || j in second :: j in first + second;
    assert DownWrites(first + second, pipelines, events) ==
           DownWrites(first, pipelines, events) + DownWrites(second, pipelines, events);
    ApplyConcat(DownWrites(first, pipelines, events), DownWrites(second, pipelines, events), table);
  }

  // ---- Upgrade and then downgrade ----

  /** Some pipeline with this event reaches the item. */
  predicate ReachedFrom(pipelines: map<Id, Pipeline>, groups: map<Item, Option<Id>>, e: Id, i: Item) {
    exists p :: p in pipelines && pipelines[p].event == Some(e) && Reaches(pipelines[p], groups, i)
  }

  /** All items reached from one event have the same commit_sha (nulls included). */
  ghost predicate Agreeing(pipelines: map<Id, Pipeline>, groups: map<Item, Option<Id>>, shas: map<Item, Option<string>>)
    requires shas.Keys == groups.Keys
  {
    forall e, i, j | i in groups && j in groups && ReachedFrom(pipelines, groups, e, i) && ReachedFrom(pipelines, groups, e, j)
      :: shas[i] == shas[j]
  }

  /** Whatever is reached from an event has its commit_sha back. */
  ghost predicate Restored(
    pipelines: map<Id, Pipeline>, groups: map<Item, Option<Id>>,
    shas: map<Item, Option<string>>, after: map<Item, Option<string>>)
  {
    forall e, i | i in shas && ReachedFrom(pipelines, groups, e, i) :: i in after && after[i] == shas[i]
  }

  /** The events between the two migrations. */
  ghost predicate MovedUp(
    pipelines: map<Id, Pipeline>, groups: map<Item, Option<Id>>, shas: map<Item, Option<string>>,
    up: Answers, events: map<Id, Option<string>>)
  {
    && shas.Keys == groups.Keys && EventsExist(pipelines, events.Keys) && AnswersUp(up, pipelines, groups)
    && Known(up.All(), pipelines, shas) && events == Apply(UpWrites(up.All(), pipelines, shas), Nulls(events.Keys))
  }

  ghost predicate MovedDown(
    pipelines: map<Id, Pipeline>, groups: map<Item, Option<Id>>, events: map<Id, Option<string>>,
    down: Answers, after: map<Item, Option<string>>)
  {
    && AnswersDown(down, pipelines, groups)
    && HaveEvents(down.All(), pipelines, events)
    && after == Apply(DownWrites(down.All(), pipelines, events), Nulls(groups.Keys))
  }

  lemma {:induction false} EventHasASha(
    pipelines: map<Id, Pipeline>, groups: map<Item, Option<Id>>, shas: map<Item, Option<string>>,
    up: Answers, events: map<Id, Option<string>>, e: Id)
    requires MovedUp(pipelines, groups, shas, up, events)
    requires e in events
    ensures (exists i :: i in shas && ReachedFrom(pipelines, groups, e, i) && events[e] == shas[i])
         || (events[e] == None && forall i :: !ReachedFrom(pipelines, groups, e, i))
  {
    var writes := UpWrites(up.All(), pipelines, shas);
    SomeWriteWins(writes, Nulls(events.Keys), e);
    if n :| 0 <= n < |writes| && writes[n].key == Some(e) && writes[n].sha == events[e] {
      var j := up.All()[n];
      assert j in up.All();
      InAnswers(up, j);
      assert ReachedFrom(pipelines, groups, e, j.item);
    }
    forall i | ReachedFrom(pipelines, groups, e, i) ensures exists n :: 0 <= n < |writes| && writes[n].key == Some(e) {
      var p :| p in pipelines && pipelines[p].event == Some(e) && Reaches(pipelines[p], groups, i);
      assert Join(p, i) in up.Of(i.kind);
      InAnswers(up, Join(p, i));
      var n :| 0 <= n < |up.All()| && up.All()[n] == Join(p, i);
      assert writes[n].key == Some(e);
    }
  }

  /** After the downgrade an item has the commit_sha of an event that reaches it. */
  lemma {:induction false} ItemHasAShaOfItsEvents(
    pipelines: map<Id, Pipeline>, groups: map<Item, Option<Id>>, events: map<Id, Option<string>>,
    down: Answers, after: map<Item, Option<string>>, i: Item)
    requires MovedDown(pipelines, groups, events, down, after) && EventsExist(pipelines, events.Keys)
    requires i in groups
    ensures i in after
    ensures (exists e :: e in events && ReachedFrom(pipelines, groups, e, i) && after[i] == events[e])
         || (after[i] == None && forall e: Id :: !ReachedFrom(pipelines, groups, e, i))
  {
    var writes := DownWrites(down.All(), pipelines, events);
    SomeWriteWins(writes, Nulls(groups.Keys), i);
    if n :| 0 <= n < |writes| && writes[n].key == Some(i) && writes[n].sha == after[i] {
      var j := down.All()[n];
      assert j in down.All();
      InAnswers(down, j);
      assert ReachedFrom(pipelines, groups, pipelines[j.pipeline].event.value, i);
    }
    forall e: Id | ReachedFrom(pipelines, groups, e, i)
      ensures exists n :: 0 <= n < |writes| && writes[n].key == Some(i)
    {
      var p :| p in pipelines && pipelines[p].event == Some(e) && Reaches(pipelines[p], groups, i);
      assert Join(p, i) in down.Of(i.kind);
      InAnswers(down, Join(p, i));
      var n :| 0 <= n < |down.All()| && down.All()[n] == Join(p, i);
      assert writes[n].key == Some(i);
    }
  }

  lemma {:induction false} RoundTripRestores(
    pipelines: map<Id, Pipeline>, groups: map<Item, Option<Id>>, shas: map<Item, Option<string>>,
    up: Answers, events: map<Id, Option<string>>, down: Answers, after: map<Item, Option<string>>)
    requires MovedUp(pipelines, groups, shas, up, events) && MovedDown(pipelines, groups, events, down, after)
    requires Agreeing(pipelines, groups, shas)
    ensures Restored(pipelines, groups, shas, after)
    ensures forall i | i in groups && (forall e: Id :: !ReachedFrom(pipelines, groups, e, i)) :: i in after && after[i] == None
  {
    forall i | i in groups
      ensures i in after
      ensures forall e: Id :: ReachedFrom(pipelines, groups, e, i) ==> after[i] == shas[i]
      ensures (forall e: Id :: !ReachedFrom(pipelines, groups, e, i)) ==> after[i] == None
    {
      ItemHasAShaOfItsEvents(pipelines, groups, events, down, after, i);
      if e :| e in events && ReachedFrom(pipelines, groups, e, i) && after[i] == events[e] {
        EventHasASha(pipelines, groups, shas, up, events, e);
      }
    }
  }

  // ---- The same over the columns ----

  /** An event reaches an item when one of its pipelines has the item's group, or the item itself. */
  lemma ReachedExactlyWhen(pipelines: map<Id, Pipeline>, groups: map<Item, Option<Id>>, e: Id, i: Item)
    ensures ReachedFrom(pipelines, groups, e, i) <==>
            exists p ::
              && p in pipelines && pipelines[p].event == Some(e) && i in groups && i.kind in pipelines[p].links
              && (i.kind == Koji || i.kind == Copr || i.kind == TestRun ==> groups[i] == Some(pipelines[p].links[i.kind]))
              && (i.kind == Srpm || i.kind == VmImage ==> pipelines[p].links[i.kind] == i.id)
  {
    if p :|
      && p in pipelines && pipelines[p].event == Some(e) && i in groups && i.kind in pipelines[p].links
      && (i.kind == Koji || i.kind == Copr || i.kind == TestRun ==> groups[i] == Some(pipelines[p].links[i.kind]))
      && (i.kind == Srpm || i.kind == VmImage ==> pipelines[p].links[i.kind] == i.id)
    {
      assert Reaches(pipelines[p], groups, i);
    }
  }

  /**
  After the upgrade an event has the commit_sha of some item that one of its pipelines points to,
  or null if there is none.
  */
  lemma {:induction false} EventHasAShaItReaches(
    pipelines: map<Id, Pipeline>, groups: map<Item, Option<Id>>, shas: map<Item, Option<string>>,
    up: Answers, events: map<Id, Option<string>>, e: Id)
    requires MovedUp(pipelines, groups, shas, up, events)
    requires e in events
    ensures
      || (exists i, p ::
            && i in shas && events[e] == shas[i]
            && p in pipelines && pipelines[p].event == Some(e) && i in groups && i.kind in pipelines[p].links
            && (i.kind == Koji || i.kind == Copr || i.kind == TestRun ==> groups[i] == Some(pipelines[p].links[i.kind]))
            && (i.kind == Srpm || i.kind == VmImage ==> pipelines[p].links[i.kind] == i.id))
      || (&& events[e] == None
          && !exists i, p ::
            && p in pipelines && pipelines[p].event == Some(e) && i in groups && i.kind in pipelines[p].links
            && (i.kind == Koji || i.kind == Copr || i.kind == TestRun ==> groups[i] == Some(pipelines[p].links[i.kind]))
            && (i.kind == Srpm || i.kind == VmImage ==> pipelines[p].links[i.kind] == i.id))
  {
    EventHasASha(pipelines, groups, shas, up, events, e);
    if i :| i in shas && ReachedFrom(pipelines, groups, e, i) && events[e] == shas[i] {
      ReachedExactlyWhen(pipelines, groups, e, i);
    } else {
      forall i ensures !ReachedFrom(pipelines, groups, e, i) {
      }
      forall i ensures !exists p ::
        && p in pipelines && pipelines[p].event == Some(e) && i in groups && i.kind in pipelines[p].links
        && (i.kind == Koji || i.kind == Copr || i.kind == TestRun ==> groups[i] == Some(pipelines[p].links[i.kind]))
        && (i.kind == Srpm || i.kind == VmImage ==> pipelines[p].links[i.kind] == i.id)
      {
        ReachedExactlyWhen(pipelines, groups, e, i);
      }
    }
  }

  lemma ReachedBySomeExactlyWhen(pipelines: map<Id, Pipeline>, groups: map<Item, Option<Id>>, i: Item)
    ensures (exists e: Id :: ReachedFrom(pipelines, groups, e, i)) <==>
            exists p ::
              && p in pipelines && pipelines[p].event.Some? && i in groups && i.kind in pipelines[p].links
              && (i.kind == Koji || i.kind == Copr || i.kind == TestRun ==> groups[i] == Some(pipelines[p].links[i.kind]))
              && (i.kind == Srpm || i.kind == VmImage ==> pipelines[p].links[i.kind] == i.id)
  {
    if e: Id :| ReachedFrom(pipelines, groups, e, i) {
      ReachedExactlyWhen(pipelines, groups, e, i);
    }
    if p :|
      && p in pipelines && pipelines[p].event.Some? && i in groups && i.kind in pipelines[p].links
      && (i.kind == Koji || i.kind == Copr || i.kind == TestRun ==> groups[i] == Some(pipelines[p].links[i.kind]))
      && (i.kind == Srpm || i.kind == VmImage ==> pipelines[p].links[i.kind] == i.id)
    {
      ReachedExactlyWhen(pipelines, groups, pipelines[p].event.value, i);
      assert ReachedFrom(pipelines, groups, pipelines[p].event.value, i);
    }
  }

  /**
  When the items of each event agree, the round trip restores every item that a pipeline with an
  event points to, in any order of rows; all other items end up null.
  */
  lemma {:induction false} RoundTripRestoresAgreeingItems(
    pipelines: map<Id, Pipeline>, groups: map<Item, Option<Id>>, shas: map<Item, Option<string>>,
    up: Answers, events: map<Id, Option<string>>, down: Answers, after: map<Item, Option<string>>, i: Item)
    requires MovedUp(pipelines, groups, shas, up, events) && MovedDown(pipelines, groups, events, down, after)
    requires Agreeing(pipelines, groups, shas) && i in groups
    ensures i in shas && i in after
    ensures after[i] ==
            if exists p ::
              && p in pipelines && pipelines[p].event.Some? && i in groups && i.kind in pipelines[p].links
              && (i.kind == Koji || i.kind == Copr || i.kind == TestRun ==> groups[i] == Some(pipelines[p].links[i.kind]))
              && (i.kind == Srpm || i.kind == VmImage ==> pipelines[p].links[i.kind] == i.id)
            then shas[i] else None
  {
    RoundTripRestores(pipelines, groups, shas, up, events, down, after);
    ReachedBySomeExactlyWhen(pipelines, groups, i);
    ItemHasAShaOfItsEvents(pipelines, groups, events, down, after, i);
    assert i in shas;
    hide MovedUp, MovedDown, Agreeing, Reaches, ReachedFrom;
  }

  /** Answers in which the rows of one kind end in `j`. */
  ghost function AnswersEndingIn(pipelines: map<Id, Pipeline>, groups: map<Item, Option<Id>>, j: Join): (down: Answers)
    requires j in EventJoinsOf(pipelines, groups, j.item.kind)
    ensures AnswersDown(down, pipelines, groups)
    ensures down.Of(j.item.kind) != [] && down.Of(j.item.kind)[|down.Of(j.item.kind)| - 1] == j
  {
    var list := kind requires kind == j.item.kind ==> j in EventJoinsOf(pipelines, groups, kind) =>
      if kind == j.item.kind then ListEndingIn(EventJoinsOf(pipelines, groups, kind), j)
      else ListOf(EventJoinsOf(pipelines, groups, kind));
    var down := Answers(list(Koji), list(Srpm), list(Copr), list(TestRun), list(VmImage));
    assert forall kind :: down.Of(kind) == list(kind);
    down
  }

  /** The joins of the kinds that are restored before this one, and those of the kinds after it. */
  function BeforeKind(a: Answers, kind: Kind): seq<Join> {
    match kind
    case Koji => []
    case Srpm => a.koji
    case Copr => a.koji + a.srpm
    case TestRun => a.koji + a.srpm + a.copr
    case VmImage => a.koji + a.srpm + a.copr + a.testRun
  }

  function AfterKind(a: Answers, kind: Kind): seq<Join> {
    match kind
    case Koji => a.srpm + a.copr + a.testRun + a.vmImage
    case Srpm => a.copr + a.testRun + a.vmImage
    case Copr => a.testRun + a.vmImage
    case TestRun => a.vmImage
    case VmImage => []
  }

  lemma AnswersAroundKind(a: Answers, kind: Kind)
    ensures a.All() == BeforeKind(a, kind) + a.Of(kind) + AfterKind(a, kind)
  {
  }

  lemma OthersAfterKind(a: Answers, kind: Kind, j: Join)
    requires j in AfterKind(a, kind) && forall k, j | j in a.Of(k) :: j.item.kind == k
    ensures j.item.kind != kind
  {
    match kind
    case Koji => assert j in a.Of(Srpm) || j in a.Of(Copr) || j in a.Of(TestRun) || j in a.Of(VmImage);
    case Srpm => assert j in a.Of(Copr) || j in a.Of(TestRun) || j in a.Of(VmImage);
    case Copr => assert j in a.Of(TestRun) || j in a.Of(VmImage);
    case TestRun => assert j in a.Of(VmImage);
    case VmImage =>
  }

  /** The last join of a kind is followed by joins of other kinds only. */
  lemma LastOfKind(answers: Answers, kind: Kind) returns (n: nat)
    requires answers.Of(kind) != []
    requires forall k, j | j in answers.Of(k) :: j.item.kind == k
    ensures n < |answers.All()| && answers.All()[n] == answers.Of(kind)[|answers.Of(kind)| - 1]
    ensures forall m | n < m < |answers.All()| :: answers.All()[m].item.kind != kind
  {
    hide BeforeKind, AfterKind, Answers.All, Answers.Of;
    AnswersAroundKind(answers, kind);
    n := |BeforeKind(answers, kind)| + |answers.Of(kind)| - 1;
    forall m | n < m < |answers.All()| ensures answers.All()[m].item.kind != kind {
      assert answers.All()[m] == AfterKind(answers, kind)[m - n - 1];
      OthersAfterKind(answers, kind, answers.All()[m]);
    }
  }

  lemma {:induction false} DowngradeCanEndIn(
    pipelines: map<Id, Pipeline>, groups: map<Item, Option<Id>>, events: map<Id, Option<string>>, p: Id, i: Item)
    returns (down: Answers)
    requires EventsExist(pipelines, events.Keys)
    requires p in pipelines && pipelines[p].event.Some? && Reaches(pipelines[p], groups, i)
    ensures AnswersDown(down, pipelines, groups) && HaveEvents(down.All(), pipelines, events)
    ensures var after := Apply(DownWrites(down.All(), pipelines, events), Nulls(groups.Keys));
            i in after && after[i] == events[pipelines[p].event.value]
  {
    assert Join(p, i) in EventJoinsOf(pipelines, groups, i.kind);
    down := AnswersEndingIn(pipelines, groups, Join(p, i));
    JoinsHaveEvents(down, pipelines, groups, events);
    var n := LastOfKind(down, i.kind);
    LastWriteWins(DownWrites(down.All(), pipelines, events), Nulls(groups.Keys), n, i);
  }

  /** The round trip restores every reachable item in all orders of rows exactly when the items agree. */
  lemma {:induction false} RoundTripRestoresExactlyAgreeingItems(
    pipelines: map<Id, Pipeline>, groups: map<Item, Option<Id>>, shas: map<Item, Option<string>>,
    up: Answers, events: map<Id, Option<string>>)
    requires MovedUp(pipelines, groups, shas, up, events)
    ensures Agreeing(pipelines, groups, shas) <==>
            forall down, after :: MovedDown(pipelines, groups, events, down, after) ==>
              Restored(pipelines, groups, shas, after)
  {
    if Agreeing(pipelines, groups, shas) {
      forall down, after | MovedDown(pipelines, groups, events, down, after)
        ensures Restored(pipelines, groups, shas, after)
      {
        RoundTripRestores(pipelines, groups, shas, up, events, down, after);
      }
    } else {
      var e, i, j :| i in groups && j in groups && ReachedFrom(pipelines, groups, e, i) && ReachedFrom(pipelines, groups, e, j)
                     && shas[i] != shas[j];
      var lost := if events[e] == shas[i] then j else i;
      var p :| p in pipelines && pipelines[p].event == Some(e) && Reaches(pipelines[p], groups, lost);
      var down := DowngradeCanEndIn(pipelines, groups, events, p, lost);
      var after := Apply(DownWrites(down.All(), pipelines, events), Nulls(groups.Keys));
      assert MovedDown(pipelines, groups, events, down, after) && !Restored(pipelines, groups, shas, after);
    }
  }
}
