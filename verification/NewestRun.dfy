/**
The relation behind `has_newer_run`: a result is only reported when no newer run exists.  The same
query serves Copr builds, Koji builds and test runs, so targets, groups and pipelines stand for
any one of the three.  The Koji query does not compare identifiers: there they are all null here.
*/
module NewestRun {
  import opened Listings
  import opened Options

  type Id = nat

  /** The columns of an event that the query compares; nulls are equal to nulls. */
  datatype Event = Event(kind: string, subject: Option<int>, sha: Option<string>)

  datatype Pipeline = Pipeline(datetime: Option<int>, event: Option<Id>, group: Option<Id>)

  datatype Target = Target(name: Option<string>, identifier: Option<string>, group: Option<Id>)

  /** `runs` has the pipelines of every group in the order in which they load. */
  datatype Db = Db(
    events: map<Id, Event>, pipelines: map<Id, Pipeline>, targets: map<Id, Target>, runs: map<Id, seq<Id>>)

  ghost predicate Valid(db: Db) {
    && (forall p | p in db.pipelines && db.pipelines[p].event.Some? :: db.pipelines[p].event.value in db.events)
    && (forall p | p in db.pipelines && db.pipelines[p].group.Some? :: db.pipelines[p].group.value in db.runs)
    && (forall t | t in db.targets && db.targets[t].group.Some? :: db.targets[t].group.value in db.runs)
    && (forall g | g in db.runs :: Lists(db.runs[g], set p | p in db.pipelines && db.pipelines[p].group == Some(g)))
  }

  /** max((r.datetime for r in runs if r.datetime), default=None) */
  function Latest(pipelines: map<Id, Pipeline>, runs: seq<Id>): Option<int> {
    if runs == [] then None else
      var rest := Latest(pipelines, runs[1..]);
      var d := if runs[0] in pipelines then pipelines[runs[0]].datetime else None;
      if d.None? || (rest.Some? && rest.value >= d.value) then rest else d
  }

  lemma {:induction false} LatestIsTheMaximum(pipelines: map<Id, Pipeline>, runs: seq<Id>)
    ensures forall p | p in runs && p in pipelines && pipelines[p].datetime.Some? ::
              var latest := Latest(pipelines, runs); latest.Some? && pipelines[p].datetime.value <= latest.value
    ensures Latest(pipelines, runs).Some? ==>
              exists p :: p in runs && p in pipelines && pipelines[p].datetime == Latest(pipelines, runs)
  {
    if runs != [] {
      LatestIsTheMaximum(pipelines, runs[1..]);
      assert runs[0] in runs && forall p | p in runs :: p == runs[0] || p in runs[1..];
      if Latest(pipelines, runs).Some? && Latest(pipelines, runs) == Latest(pipelines, runs[1..]) {
        var p :| p in runs[1..] && p in pipelines && pipelines[p].datetime == Latest(pipelines, runs);
        assert p in runs;
      }
    }
  }

  /** The event of the first loaded run. */
  function FirstEvent(db: Db, g: Id): Option<Id>
    requires g in db.runs
  {
    if db.runs[g] != [] && db.runs[g][0] in db.pipelines then db.pipelines[db.runs[g][0]].event else None
  }

  /** The WHERE clause for a target `b` joined with a pipeline `p` of its group. */
  predicate Selected(db: Db, a: Id, event: Event, latest: int, b: Id, p: Id)
    requires a in db.targets
  {
    && b in db.targets && p in db.pipelines
    && db.targets[b].group.Some? && db.pipelines[p].group == db.targets[b].group
    && db.pipelines[p].event.Some? && db.pipelines[p].event.value in db.events
    && db.events[db.pipelines[p].event.value] == event
    && db.targets[b].identifier == db.targets[a].identifier
    && db.targets[b].name == db.targets[a].name
    && db.pipelines[p].datetime.Some? && db.pipelines[p].datetime.value > latest
    && b != a
  }

  /** `b` is a newer run in the eyes of `a`, whose group is not null. */
  predicate Newer(db: Db, a: Id, b: Id)
    requires a in db.targets && db.targets[a].group.Some? && db.targets[a].group.value in db.runs
  {
    var g := db.targets[a].group.value;
    var event, latest := FirstEvent(db, g), Latest(db.pipelines, db.runs[g]);
    && event.Some? && event.value in db.events && latest.Some?
    && exists p | p in db.pipelines :: Selected(db, a, db.events[event.value], latest.value, b, p)
  }

  /** run.get_project_event_model() asks the group; None is the AttributeError of a missing one. */
  function ProjectEvent(db: Db, a: Id): Option<Option<Id>>
    requires a in db.targets && (db.targets[a].group.Some? ==> db.targets[a].group.value in db.runs)
  {
    if db.targets[a].group.None? then None else Some(FirstEvent(db, db.targets[a].group.value))
  }

  /** run.group_of_targets.runs if run.group_of_targets else [] */
  function RunsOf(db: Db, a: Id): seq<Id>
    requires a in db.targets && (db.targets[a].group.Some? ==> db.targets[a].group.value in db.runs)
  {
    if db.targets[a].group.None? then [] else db.runs[db.targets[a].group.value]
  }

  /** The statements in their order: the event is fetched first, the guard for a missing group comes after it. */
  function HasNewerRun(db: Db, a: Id): Option<bool>
    requires a in db.targets && (db.targets[a].group.Some? ==> db.targets[a].group.value in db.runs)
  {
    var event := ProjectEvent(db, a);
    if event.None? then None
    else if event.value.None? || Latest(db.pipelines, RunsOf(db, a)).None? then Some(false)
    else Some(exists b | b in db.targets :: Newer(db, a, b))
  }

  /** The guard for a missing group asked first, as its `else []` intends. */
  function WithGuardFirst(db: Db, a: Id): Option<bool>
    requires a in db.targets && (db.targets[a].group.Some? ==> db.targets[a].group.value in db.runs)
  {
    if Latest(db.pipelines, RunsOf(db, a)).None? then Some(false) else HasNewerRun(db, a)
  }

  /** The guard comes too late exactly for a target without a group: the call raises instead of saying no. */
  lemma MissingGroupRaises(db: Db, a: Id)
    requires a in db.targets && (db.targets[a].group.Some? ==> db.targets[a].group.value in db.runs)
    ensures WithGuardFirst(db, a).Some?
    ensures HasNewerRun(db, a) != WithGuardFirst(db, a) <==> db.targets[a].group == None
    ensures db.targets[a].group == None ==> HasNewerRun(db, a) == None && WithGuardFirst(db, a) == Some(false)
  {
    assert Latest(db.pipelines, []) == None;
  }

  // ---- With coherent groups: a strict order ----

  /** All pipelines of a group have the same event. */
  ghost predicate Coherent(db: Db) {
    forall p, q | p in db.pipelines && q in db.pipelines && db.pipelines[p].group.Some?
                  && db.pipelines[p].group == db.pipelines[q].group :: db.pipelines[p].event == db.pipelines[q].event
  }

  ghost predicate Grouped(db: Db, a: Id) {
    a in db.targets && db.targets[a].group.Some?
  }

  /** When the group of a target last got a pipeline. */
  ghost function Age(db: Db, a: Id): Option<int>
    requires Valid(db) && Grouped(db, a)
  {
    Latest(db.pipelines, db.runs[db.targets[a].group.value])
  }

  /** The event that a target belongs to. */
  ghost function EventOf(db: Db, a: Id): Option<Event>
    requires Valid(db) && Grouped(db, a)
  {
    var e := FirstEvent(db, db.targets[a].group.value);
    if e.Some? && e.value in db.events then Some(db.events[e.value]) else None
  }

  /** Attempts at the same thing: same event, target and identifier. */
  ghost predicate SameClass(db: Db, a: Id, b: Id)
    requires Valid(db) && Grouped(db, a) && Grouped(db, b)
  {
    && EventOf(db, a).Some? && EventOf(db, a) == EventOf(db, b)
    && db.targets[a].name == db.targets[b].name && db.targets[a].identifier == db.targets[b].identifier
  }

  /** Even without coherence a newer run has a later pipeline, and the same target and identifier. */
  lemma NewerIsLater(db: Db, a: Id, b: Id)
    requires Valid(db) && Grouped(db, a) && Newer(db, a, b)
    ensures Grouped(db, b)
    ensures Age(db, a).Some? && Age(db, b).Some? && Age(db, a).value < Age(db, b).value
    ensures db.targets[a].name == db.targets[b].name && db.targets[a].identifier == db.targets[b].identifier
  {
    var g := db.targets[b].group.value;
    var p :| p in db.runs[g] && db.pipelines[p].datetime.Some? && db.pipelines[p].datetime.value > Age(db, a).value;
    LatestIsTheMaximum(db.pipelines, db.runs[g]);
  }

  lemma RunsHaveTheEvent(db: Db, b: Id, p: Id)
    requires Valid(db) && Coherent(db) && Grouped(db, b)
    requires p in db.pipelines && db.pipelines[p].group == db.targets[b].group
    ensures FirstEvent(db, db.targets[b].group.value) == db.pipelines[p].event
  {
    var g := db.targets[b].group.value;
    assert p in db.runs[g];
    assert db.runs[g][0] in db.runs[g];
  }

  /** With coherent groups the query compares the classes and the ages of two targets, and nothing else. */
  lemma {:induction false} NewerExactlyWhenLaterInItsClass(db: Db, a: Id, b: Id)
    requires Valid(db) && Coherent(db) && Grouped(db, a) && Grouped(db, b)
    ensures Newer(db, a, b) <==>
            SameClass(db, a, b) && Age(db, a).Some? && Age(db, b).Some? && Age(db, a).value < Age(db, b).value
  {
    var g := db.targets[b].group.value;
    if Newer(db, a, b) {
      NewerIsLater(db, a, b);
      var event := FirstEvent(db, db.targets[a].group.value);
      var p :| p in db.pipelines && Selected(db, a, db.events[event.value], Age(db, a).value, b, p);
      RunsHaveTheEvent(db, b, p);
    }
    if SameClass(db, a, b) && Age(db, a).Some? && Age(db, b).Some? && Age(db, a).value < Age(db, b).value {
      LatestIsTheMaximum(db.pipelines, db.runs[g]);
      var p :| p in db.runs[g] && p in db.pipelines && db.pipelines[p].datetime == Age(db, b);
      RunsHaveTheEvent(db, b, p);
      assert Selected(db, a, EventOf(db, a).value, Age(db, a).value, b, p);
    }
  }

  /** A strict partial order. */
  lemma {:induction false} NewerIsAStrictOrder(db: Db, a: Id, b: Id, c: Id)
    requires Valid(db) && Coherent(db) && Grouped(db, a)
    ensures !Newer(db, a, a)
    ensures Newer(db, a, b) ==> Grouped(db, b) && !Newer(db, b, a)
    ensures Newer(db, a, b) ==> (Newer(db, b, c) ==> Newer(db, a, c))
  {
    if Newer(db, a, b) {
      NewerIsLater(db, a, b);
      NewerExactlyWhenLaterInItsClass(db, a, b);
      NewerExactlyWhenLaterInItsClass(db, b, a);
      if Newer(db, b, c) {
        NewerIsLater(db, b, c);
        NewerExactlyWhenLaterInItsClass(db, b, c);
        NewerExactlyWhenLaterInItsClass(db, a, c);
      }
    }
  }

  // ---- The answer over the columns ----

  /** Pipeline `p` of the group of `b` makes `b` a newer run of `a`, whose event is that of pipeline `r`. */
  lemma NewerOverTheColumns(db: Db, a: Id, b: Id)
    requires Valid(db) && a in db.targets && db.targets[a].group.Some?
    requires Newer(db, a, b)
    ensures b in db.targets && db.targets[b].name == db.targets[a].name && db.targets[b].identifier == db.targets[a].identifier
    ensures var runs := db.runs[db.targets[a].group.value];
            && runs != [] && runs[0] in db.pipelines && db.pipelines[runs[0]].event.Some?
            && (exists r :: r in runs && r in db.pipelines && db.pipelines[r].datetime.Some?)
            && exists p ::
                 && p in db.pipelines && db.pipelines[p].group.Some? && db.pipelines[p].group == db.targets[b].group
                 && db.pipelines[p].event.Some? && db.pipelines[p].datetime.Some?
                 && db.pipelines[p].event.value in db.events && db.pipelines[runs[0]].event.value in db.events
                 && db.events[db.pipelines[p].event.value] == db.events[db.pipelines[runs[0]].event.value]
                 && forall r | r in runs && r in db.pipelines && db.pipelines[r].datetime.Some? ::
                      db.pipelines[r].datetime.value < db.pipelines[p].datetime.value
  {
    var runs := db.runs[db.targets[a].group.value];
    LatestIsTheMaximum(db.pipelines, runs);
    var event := FirstEvent(db, db.targets[a].group.value);
    var latest := Latest(db.pipelines, runs);
    var p :| p in db.pipelines && Selected(db, a, db.events[event.value], latest.value, b, p);
  }

  /** And any such pipeline does. */
  lemma ColumnsMakeNewer(db: Db, a: Id, b: Id, p: Id, dated: Id)
    requires Valid(db) && a in db.targets && db.targets[a].group.Some?
    requires b in db.targets && db.targets[b].name == db.targets[a].name && db.targets[b].identifier == db.targets[a].identifier
    requires var runs := db.runs[db.targets[a].group.value];
             && runs != [] && runs[0] in db.pipelines && db.pipelines[runs[0]].event.Some?
             && dated in runs && dated in db.pipelines && db.pipelines[dated].datetime.Some?
             && p in db.pipelines && db.pipelines[p].group.Some? && db.pipelines[p].group == db.targets[b].group
             && db.pipelines[p].event.Some? && db.pipelines[p].datetime.Some?
             && db.pipelines[p].event.value in db.events && db.pipelines[runs[0]].event.value in db.events
             && db.events[db.pipelines[p].event.value] == db.events[db.pipelines[runs[0]].event.value]
             && forall r | r in runs && r in db.pipelines && db.pipelines[r].datetime.Some? ::
                  db.pipelines[r].datetime.value < db.pipelines[p].datetime.value
    ensures Newer(db, a, b) && HasNewerRun(db, a) == Some(true)
  {
    var g := db.targets[a].group.value;
    LatestIsTheMaximum(db.pipelines, db.runs[g]);
    assert g in db.runs && forall q | q in db.pipelines && db.pipelines[q].group == Some(g) :: q in db.runs[g];
    assert Selected(db, a, db.events[FirstEvent(db, g).value], Latest(db.pipelines, db.runs[g]).value, b, p);
  }

  /**
  For all tables: a target has a newer run exactly when it has a group with a dated pipeline whose
  first loaded pipeline has an event, and some target of the same name and identifier has a group
  with a pipeline of an equal event that is dated after all pipelines of the first group.
  */
  lemma {:induction false} HasNewerRunExactlyWhen(db: Db, a: Id)
    requires Valid(db) && a in db.targets
    ensures HasNewerRun(db, a) == None <==> db.targets[a].group == None
    ensures HasNewerRun(db, a) == Some(true) <==>
            && db.targets[a].group.Some?
            && var runs := db.runs[db.targets[a].group.value];
               && runs != [] && runs[0] in db.pipelines && db.pipelines[runs[0]].event.Some?
               && (exists r :: r in runs && r in db.pipelines && db.pipelines[r].datetime.Some?)
               && exists b, p ::
                    && b in db.targets && db.targets[b].name == db.targets[a].name
                    && db.targets[b].identifier == db.targets[a].identifier
                    && p in db.pipelines && db.pipelines[p].group.Some? && db.pipelines[p].group == db.targets[b].group
                    && db.pipelines[p].event.Some? && db.pipelines[p].datetime.Some?
                    && db.pipelines[p].event.value in db.events && db.pipelines[runs[0]].event.value in db.events
                    && db.events[db.pipelines[p].event.value] == db.events[db.pipelines[runs[0]].event.value]
                    && forall r | r in runs && r in db.pipelines && db.pipelines[r].datetime.Some? ::
                         db.pipelines[r].datetime.value < db.pipelines[p].datetime.value
  {
    hide Newer, Latest, FirstEvent;
    if HasNewerRun(db, a) == Some(true) {
      var b :| b in db.targets && Newer(db, a, b);
      NewerOverTheColumns(db, a, b);
    } else if db.targets[a].group.Some? {
      var runs := db.runs[db.targets[a].group.value];
      if dated, b, p :|
        && runs != [] && runs[0] in db.pipelines && db.pipelines[runs[0]].event.Some?
        && dated in runs && dated in db.pipelines && db.pipelines[dated].datetime.Some?
        && b in db.targets && db.targets[b].name == db.targets[a].name
        && db.targets[b].identifier == db.targets[a].identifier
        && p in db.pipelines && db.pipelines[p].group.Some? && db.pipelines[p].group == db.targets[b].group
        && db.pipelines[p].event.Some? && db.pipelines[p].datetime.Some?
        && db.pipelines[p].event.value in db.events && db.pipelines[runs[0]].event.value in db.events
        && db.events[db.pipelines[p].event.value] == db.events[db.pipelines[runs[0]].event.value]
        && forall r | r in runs && r in db.pipelines && db.pipelines[r].datetime.Some? ::
             db.pipelines[r].datetime.value < db.pipelines[p].datetime.value
      {
        ColumnsMakeNewer(db, a, b, p, dated);
      }
    }
  }

  /**
  With coherent groups: exactly when some attempt at the same event, name and identifier has a
  later last pipeline.
  */
  lemma {:induction false} HasNewerRunMeansALaterAttempt(db: Db, a: Id)
    requires Valid(db) && Coherent(db) && a in db.targets
    ensures HasNewerRun(db, a) == Some(true) <==>
            && Grouped(db, a) && Age(db, a).Some?
            && exists b :: Grouped(db, b) && SameClass(db, a, b) && Age(db, b).Some? && Age(db, a).value < Age(db, b).value
  {
    if HasNewerRun(db, a) == Some(true) {
      var b :| b in db.targets && Newer(db, a, b);
      NewerIsLater(db, a, b);
      NewerExactlyWhenLaterInItsClass(db, a, b);
    } else if Grouped(db, a) {
      forall b | Grouped(db, b) ensures !Newer(db, a, b) {
      }
      if b :| Grouped(db, b) && SameClass(db, a, b) && Age(db, a).Some? && Age(db, b).Some? && Age(db, a).value < Age(db, b).value {
        NewerExactlyWhenLaterInItsClass(db, a, b);
      }
    }
  }

  // ---- Somebody can always report ----

  ghost function Later(db: Db, a: Id): set<Id>
    requires Valid(db) && Grouped(db, a)
  {
    set t | t in db.targets && Grouped(db, t) && Age(db, t).Some? && (Age(db, a).Some? ==> Age(db, t).value > Age(db, a).value)
  }

  /** `b` is reached from `a` by going from run to newer run. */
  ghost predicate Chain(db: Db, chain: seq<Id>)
    requires Valid(db)
  {
    && chain != [] && (forall n | 0 <= n < |chain| :: Grouped(db, chain[n]))
    && (forall n | 0 <= n < |chain| - 1 :: Newer(db, chain[n], chain[n + 1]))
  }

  /** Going from run to newer run always ends at one that reports, coherent groups or not. */
  lemma {:induction false} NewerRunsEnd(db: Db, a: Id) returns (chain: seq<Id>)
    requires Valid(db) && Grouped(db, a)
    ensures Chain(db, chain) && chain[0] == a && HasNewerRun(db, chain[|chain| - 1]) == Some(false)
    decreases |Later(db, a)|
  {
    if HasNewerRun(db, a) == Some(false) {
      chain := [a];
    } else {
      var b :| b in db.targets && Newer(db, a, b);
      NewerIsLater(db, a, b);
      assert b in Later(db, a) && b !in Later(db, b) && Later(db, b) <= Later(db, a);
      SubsetSize(Later(db, b), Later(db, a), b);
      var rest := NewerRunsEnd(db, b);
      chain := [a] + rest;
      assert forall n | 0 <= n < |chain| - 1 :: chain[n + 1] == rest[n] && Newer(db, chain[n], chain[n + 1]);
    }
  }

  lemma SubsetSize(small: set<Id>, large: set<Id>, extra: Id)
    requires small <= large && extra in large && extra !in small
    ensures |small| < |large|
  {
    SizeOfSubset(small, large - {extra});
  }

  lemma {:induction false} SizeOfSubset(small: set<Id>, large: set<Id>)
    requires small <= large
    ensures |small| <= |large|
  {
    if small != {} {
      var x :| x in small;
      SizeOfSubset(small - {x}, large - {x});
    }
  }

  /** With coherent groups each class has a run without a newer one, which is newer than the others or as late. */
  lemma {:induction false} EveryClassCanReport(db: Db, a: Id) returns (last: Id)
    requires Valid(db) && Coherent(db) && Grouped(db, a)
    ensures Grouped(db, last) && HasNewerRun(db, last) == Some(false)
    ensures last == a || (SameClass(db, a, last) && Newer(db, a, last))
  {
    var chain := NewerRunsEnd(db, a);
    last := chain[|chain| - 1];
    var n := 0;
    while n < |chain| - 1
      invariant 0 <= n < |chain|
      invariant chain[n] == a || Newer(db, a, chain[n])
    {
      NewerIsAStrictOrder(db, a, chain[n], chain[n + 1]);
      n := n + 1;
    }
    if last != a {
      NewerExactlyWhenLaterInItsClass(db, a, last);
    }
  }

  // ---- Without coherence the relation need not be transitive ----

  /** Group 2 has runs of both events and loads the one of event 2 first. */
  function MixedGroups(): Db {
    Db(map[1 := Event("release", Some(1), None), 2 := Event("release", Some(2), None)],
       map[1 := Pipeline(Some(10), Some(1), Some(1)), 2 := Pipeline(Some(20), Some(1), Some(2)),
           3 := Pipeline(Some(15), Some(2), Some(2)), 4 := Pipeline(Some(30), Some(2), Some(3))],
       map[1 := Target(None, None, Some(1)), 2 := Target(None, None, Some(2)), 3 := Target(None, None, Some(3))],
       map[1 := [1], 2 := [3, 2], 3 := [4]])
  }

  lemma MixedGroupsAreListed(g: Id)
    requires g in MixedGroups().runs
    ensures Lists(MixedGroups().runs[g], set p | p in MixedGroups().pipelines && MixedGroups().pipelines[p].group == Some(g))
  {
  }

  lemma MixedGroupsAreValid()
    ensures Valid(MixedGroups()) && !Coherent(MixedGroups())
  {
    hide Lists;
    var db := MixedGroups();
    forall g | g in db.runs ensures Lists(db.runs[g], set p | p in db.pipelines && db.pipelines[p].group == Some(g)) {
      MixedGroupsAreListed(g);
    }
    assert db.pipelines[2].group == db.pipelines[3].group && db.pipelines[2].event != db.pipelines[3].event;
  }

  lemma AgesInMixedGroups()
    ensures Latest(MixedGroups().pipelines, [1]) == Some(10)
    ensures Latest(MixedGroups().pipelines, [3, 2]) == Some(20)
  {
  }

  lemma SecondIsNewerThanFirst()
    ensures Newer(MixedGroups(), 1, 2)
  {
    AgesInMixedGroups();
    assert Selected(MixedGroups(), 1, Event("release", Some(1), None), 10, 2, 2);
  }

  lemma ThirdIsNewerThanSecondOnly()
    ensures Newer(MixedGroups(), 2, 3) && !Newer(MixedGroups(), 1, 3)
  {
  }

  lemma {:induction false} NewerIsNotTransitiveWithoutCoherence()
    ensures Valid(MixedGroups()) && !Coherent(MixedGroups())
    ensures Newer(MixedGroups(), 1, 2) && Newer(MixedGroups(), 2, 3) && !Newer(MixedGroups(), 1, 3)
  {
    MixedGroupsAreValid();
    SecondIsNewerThanFirst();
    ThirdIsNewerThanSecondOnly();
  }
}
