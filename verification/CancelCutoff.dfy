/**
Which running Copr builds a new event cancels.  The service reads the latest pipeline datetime of
the project object, sends it along as the cutoff, and the worker cancels only builds with a
pipeline from before.  Other workers insert, publish and link pipelines all the while.
*/
module CancelCutoff {
  import opened EventWire
  import opened Options

  type Id = nat

  /** A pull request, a branch, ...: the type of an event and the id of its subject. */
  datatype Subject = Subject(kind: string, id: Option<int>)

  datatype Status = WaitingForSrpm | Waiting | Finished

  datatype Pipeline = Pipeline(datetime: Option<int>, event: Option<Id>, group: Option<Id>)

  datatype Target = Target(group: Option<Id>, status: Status, identifier: Option<string>, name: Option<string>)

  /** `visible` are the pipelines that are committed; `used` are all ids ever given out. */
  datatype State = State(
    clock: int, events: map<Id, Subject>, pipelines: map<Id, Pipeline>, visible: set<Id>, used: set<Id>,
    targets: map<Id, Target>)

  /** One thing that some worker does to the database. */
  datatype Action =
    | Insert(p: Id, now: int, event: Option<Id>, group: Option<Id>)   // the default of the column is the clock
    | Publish(p: Id)                                                  // COMMIT of the insert
    | Remove(p: Id)                                                   // ROLLBACK, or deletion later
    | Link(p: Id, group: Option<Id>)
    | PutTarget(t: Id, target: Target)                                // insertion or change of a build
    | PutEvent(e: Id, subject: Subject)

  predicate Enabled(s: State, a: Action) {
    match a
    case Insert(p, now, event, _) => p !in s.used && now > s.clock && (event.Some? ==> event.value in s.events)
    case Publish(p) => p in s.pipelines
    case Remove(p) => p in s.pipelines
    case Link(p, _) => p in s.pipelines
    case PutTarget(_, _) => true
    case PutEvent(e, _) => e !in s.events
  }

  function Apply(s: State, a: Action): State
    requires Enabled(s, a)
  {
    match a
    case Insert(p, now, event, group) =>
      s.(clock := now, used := s.used + {p}, pipelines := s.pipelines[p := Pipeline(Some(now), event, group)])
    case Publish(p) => s.(visible := s.visible + {p})
    case Remove(p) => s.(pipelines := s.pipelines - {p}, visible := s.visible - {p})
    case Link(p, group) => s.(pipelines := s.pipelines[p := s.pipelines[p].(group := group)])
    case PutTarget(t, target) => s.(targets := s.targets[t := target])
    case PutEvent(e, subject) => s.(events := s.events[e := subject])
  }

  predicate Runs(s: State, actions: seq<Action>)
    decreases |actions|
  {
    actions != [] ==> Enabled(s, actions[0]) && Runs(Apply(s, actions[0]), actions[1..])
  }

  function Execute(s: State, actions: seq<Action>): State
    requires Runs(s, actions)
    decreases |actions|
  {
    if actions == [] then s else Execute(Apply(s, actions[0]), actions[1..])
  }

  /** No datetime is ahead of the clock. */
  predicate Valid(s: State) {
    && s.visible <= s.pipelines.Keys <= s.used
    && (forall p | p in s.pipelines && s.pipelines[p].datetime.Some? :: s.pipelines[p].datetime.value <= s.clock)
    && (forall p | p in s.pipelines && s.pipelines[p].event.Some? :: s.pipelines[p].event.value in s.events)
  }

  // ---- The two queries ----

  predicate About(s: State, p: Id, subject: Subject) {
    && p in s.visible && p in s.pipelines && s.pipelines[p].event.Some?
    && s.pipelines[p].event.value in s.events && s.events[s.pipelines[p].event.value] == subject
  }

  /** get_latest_datetime_for_event: SELECT max(datetime) over the visible pipelines, null when there is none. */
  ghost predicate LatestDatetime(s: State, subject: Subject, latest: Option<int>) {
    && (forall p | About(s, p, subject) && s.pipelines[p].datetime.Some? ::
         latest.Some? && s.pipelines[p].datetime.value <= latest.value)
    && (latest.Some? ==> exists p :: About(s, p, subject) && s.pipelines[p].datetime == latest)
  }

  /** The query always has one answer: the latest datetime of a visible pipeline of the project object, if one has any. */
  lemma {:induction false} LatestDatetimeExactly(s: State, subject: Subject, ids: set<Id>) returns (latest: Option<int>)
    requires ids == set p | p in s.pipelines && About(s, p, subject) && s.pipelines[p].datetime.Some?
    ensures forall answer :: LatestDatetime(s, subject, answer) <==> answer == latest
    ensures latest == None <==> forall p ::
              !(&& p in s.visible && p in s.pipelines && s.pipelines[p].datetime.Some?
                && s.pipelines[p].event.Some? && s.pipelines[p].event.value in s.events
                && s.events[s.pipelines[p].event.value] == subject)
    ensures latest.Some? ==>
              && (exists p ::
                    && p in s.visible && p in s.pipelines && s.pipelines[p].datetime == latest
                    && s.pipelines[p].event.Some? && s.pipelines[p].event.value in s.events
                    && s.events[s.pipelines[p].event.value] == subject)
              && (forall p |
                    && p in s.visible && p in s.pipelines && s.pipelines[p].datetime.Some?
                    && s.pipelines[p].event.Some? && s.pipelines[p].event.value in s.events
                    && s.events[s.pipelines[p].event.value] == subject ::
                    s.pipelines[p].datetime.value <= latest.value)
  {
    if ids == {} {
      latest := None;
      assert forall p | p in s.pipelines && About(s, p, subject) :: p in ids || s.pipelines[p].datetime.None?;
    } else {
      var last := LatestOf(s, ids);
      latest := s.pipelines[last].datetime;
      assert last in ids;
      forall answer | LatestDatetime(s, subject, answer) ensures answer == latest {
        assert About(s, last, subject);
        var p :| About(s, p, subject) && s.pipelines[p].datetime == answer;
        assert p in ids;
      }
    }
  }

  /** A pipeline whose datetime is not before that of any other. */
  lemma {:induction false} LatestOf(s: State, ids: set<Id>) returns (last: Id)
    requires ids != {} && forall p | p in ids :: p in s.pipelines && s.pipelines[p].datetime.Some?
    ensures last in ids && forall p | p in ids :: s.pipelines[p].datetime.value <= s.pipelines[last].datetime.value
  {
    var x :| x in ids;
    if ids == {x} {
      last := x;
    } else {
      var other := LatestOf(s, ids - {x});
      last := if s.pipelines[other].datetime.value < s.pipelines[x].datetime.value then x else other;
      assert forall p | p in ids :: p == x || p in ids - {x};
    }
  }

  /** The joins and filters for one target and one pipeline. */
  predicate Selected(s: State, subject: Subject, createdBefore: Option<int>, t: Id, p: Id) {
    && t in s.targets && About(s, p, subject)
    && s.targets[t].group.Some? && s.pipelines[p].group == s.targets[t].group
    && s.targets[t].status != Finished
    && (createdBefore.Some? ==> s.pipelines[p].datetime.Some? && s.pipelines[p].datetime.value <= createdBefore.value)
  }

  /** identifier = ... (IS NULL for None), and target IN (...) if a set is given. */
  predicate Wanted(target: Target, identifier: Option<string>, names: Option<set<string>>) {
    && target.identifier == identifier
    && (names.Some? ==> target.name.Some? && target.name.value in names.value)
  }

  function GetRunning(
    s: State, subject: Subject, createdBefore: Option<int>, identifier: Option<string>, names: Option<set<string>>): set<Id>
  {
    set t | t in s.targets && Wanted(s.targets[t], identifier, names)
            && exists p | p in s.pipelines :: Selected(s, subject, createdBefore, t, p)
  }

  /** get_running_jobs of the build helper: nothing without an event, a cutoff, or a target left by the override. */
  function GetRunningJobs(
    s: State, subject: Option<Subject>, cutoff: Option<int>, identifier: Option<string>, override: Option<set<Pair>>): set<Id>
  {
    if subject.None? || cutoff.None? then {} else
      var names := if override.Some? then Some(set pair | pair in override.value :: pair.0) else None;
      if names == Some({}) then {} else GetRunning(s, subject.value, cutoff, identifier, names)
  }

  /** What the worker finds in the dictionary for a datetime that the service read. */
  function Received(latest: Option<int>, stamp: Time -> real): Option<int> {
    FloatRead(Stamped(TimeAttribute(latest), stamp))
  }

  /**
  A build is selected exactly when it is still waiting, has the identifier and one of the names, if
  any are given, and a visible pipeline of the project object has its group and is not dated after
  the cutoff, if one is given.
  */
  lemma {:induction false} SelectedExactlyWhen(
    s: State, subject: Subject, cutoff: Option<int>, identifier: Option<string>, names: Option<set<string>>, t: Id)
    ensures t in GetRunning(s, subject, cutoff, identifier, names) <==>
            && t in s.targets && (s.targets[t].status == Waiting || s.targets[t].status == WaitingForSrpm)
            && s.targets[t].group.Some? && s.targets[t].identifier == identifier
            && (names.Some? ==> s.targets[t].name.Some? && s.targets[t].name.value in names.value)
            && exists p ::
                 && p in s.visible && p in s.pipelines && s.pipelines[p].group == s.targets[t].group
                 && s.pipelines[p].event.Some? && s.pipelines[p].event.value in s.events
                 && s.events[s.pipelines[p].event.value] == subject
                 && (cutoff.Some? ==> s.pipelines[p].datetime.Some? && s.pipelines[p].datetime.value <= cutoff.value)
  {
    if p :|
      && p in s.visible && p in s.pipelines && t in s.targets && s.pipelines[p].group == s.targets[t].group
      && s.targets[t].group.Some? && s.targets[t].status != Finished
      && s.pipelines[p].event.Some? && s.pipelines[p].event.value in s.events
      && s.events[s.pipelines[p].event.value] == subject
      && (cutoff.Some? ==> s.pipelines[p].datetime.Some? && s.pipelines[p].datetime.value <= cutoff.value)
    {
      assert Selected(s, subject, cutoff, t, p);
    }
  }

  /**
  What the helper cancels: nothing without a project object or a cutoff; else a build is among the
  answer exactly when it would be selected with the targets of the override as names, if there is
  an override, and this has a target.
  */
  lemma {:induction false} CancelledExactlyWhen(
    s: State, subject: Option<Subject>, cutoff: Option<int>, identifier: Option<string>, override: Option<set<Pair>>, t: Id)
    ensures t in GetRunningJobs(s, subject, cutoff, identifier, override) <==>
            && subject.Some? && cutoff.Some?
            && t in s.targets && (s.targets[t].status == Waiting || s.targets[t].status == WaitingForSrpm)
            && s.targets[t].group.Some? && s.targets[t].identifier == identifier
            && (override.Some? ==> s.targets[t].name.Some? && exists pair :: pair in override.value && pair.0 == s.targets[t].name.value)
            && exists p ::
                 && p in s.visible && p in s.pipelines && s.pipelines[p].group == s.targets[t].group
                 && s.pipelines[p].event.Some? && s.pipelines[p].event.value in s.events
                 && s.events[s.pipelines[p].event.value] == subject.value
                 && s.pipelines[p].datetime.Some? && s.pipelines[p].datetime.value <= cutoff.value
  {
    if subject.Some? && cutoff.Some? {
      var names := if override.Some? then Some(set pair | pair in override.value :: pair.0) else None;
      SelectedExactlyWhen(s, subject.value, cutoff, identifier, names, t);
      hide GetRunning;
    }
  }

  /** The other workers are free to do anything to pipelines, links, builds and new events. */
  lemma OthersAreFree(s: State)
    ensures forall p | p in s.pipelines :: Enabled(s, Publish(p)) && Enabled(s, Remove(p))
    ensures forall p, group | p in s.pipelines :: Enabled(s, Link(p, group))
    ensures forall t, target :: Enabled(s, PutTarget(t, target))
    ensures forall e, subject | e !in s.events :: Enabled(s, PutEvent(e, subject))
    ensures forall p, now, group | p !in s.used && now > s.clock :: Enabled(s, Insert(p, now, None, group))
    ensures forall p, now, event, group | p !in s.used && now > s.clock && event in s.events ::
              Enabled(s, Insert(p, now, Some(event), group))
  {
  }

  // ---- What a run keeps ----

  /** Rows that were there keep their datetimes and events, and new ones are stamped after the clock. */
  ghost predicate Later(before: State, after: State) {
    && before.clock <= after.clock && before.used <= after.used
    && (forall e | e in before.events :: e in after.events && after.events[e] == before.events[e])
    && (forall p | p in after.pipelines && p in before.used ::
          && p in before.pipelines && after.pipelines[p].datetime == before.pipelines[p].datetime
          && after.pipelines[p].event == before.pipelines[p].event)
    && (forall p | p in after.pipelines && p !in before.used ::
          after.pipelines[p].datetime.Some? && after.pipelines[p].datetime.value > before.clock)
  }

  lemma StepMovesForward(s: State, a: Action)
    requires Valid(s) && Enabled(s, a)
    ensures Valid(Apply(s, a)) && Later(s, Apply(s, a))
  {
  }

  lemma LaterIsTransitive(first: State, second: State, third: State)
    requires Later(first, second) && Later(second, third)
    ensures Later(first, third)
  {
  }

  lemma {:induction false} RunsMoveForward(s: State, actions: seq<Action>)
    requires Valid(s) && Runs(s, actions)
    ensures Valid(Execute(s, actions)) && Later(s, Execute(s, actions))
    decreases |actions|
  {
    if actions == [] {
      assert Later(s, s);
    } else {
      hide Valid, Later, Apply, Enabled;
      StepMovesForward(s, actions[0]);
      RunsMoveForward(Apply(s, actions[0]), actions[1..]);
      LaterIsTransitive(s, Apply(s, actions[0]), Execute(s, actions));
    }
  }

  // ---- Safety and completeness of the cutoff ----

  /**
   In any run between reading the cutoff and cancelling, a build is cancelled only if a pipeline of
   its group already existed when the cutoff was read.
   */
  lemma {:induction false} NewBuildsAreSpared(
    s: State, actions: seq<Action>, subject: Subject, latest: Option<int>, stamp: Time -> real,
    identifier: Option<string>, override: Option<set<Pair>>, t: Id)
    requires Valid(s) && Runs(s, actions) && LatestDatetime(s, subject, latest) && Accurate(stamp)
    requires t in GetRunningJobs(Execute(s, actions), Some(subject), Received(latest, stamp), identifier, override)
    ensures var s' := Execute(s, actions);
            exists p :: p in s.pipelines && About(s', p, subject) && s'.pipelines[p].group == s'.targets[t].group
  {
    var s' := Execute(s, actions);
    RunsMoveForward(s, actions);
    CutoffArrives(TimeAttribute(latest), stamp);
    var p :| p in s'.pipelines && Selected(s', subject, latest, t, p);
    assert p in s.pipelines;
  }

  /**
   Every waiting build of the project object, with the right identifier and target, is cancelled
   when a pipeline that was visible at the cutoff belongs to its group; the cutoff must be a time
   that travels.
   */
  lemma {:induction false} OldBuildsAreCancelled(
    s: State, actions: seq<Action>, subject: Subject, latest: Option<int>, stamp: Time -> real,
    identifier: Option<string>, override: Option<set<Pair>>, t: Id, p: Id)
    requires Valid(s) && Runs(s, actions) && LatestDatetime(s, subject, latest) && Accurate(stamp)
    requires latest.Some? ==> 0 < latest.value < LIMIT
    requires About(s, p, subject) && s.pipelines[p].datetime.Some?
    requires var s' := Execute(s, actions);
             && t in s'.targets && s'.targets[t].status != Finished && s'.targets[t].group.Some?
             && p in s'.visible && p in s'.pipelines && s'.pipelines[p].group == s'.targets[t].group
             && Wanted(s'.targets[t], identifier, if override.Some? then Some(set pair | pair in override.value :: pair.0) else None)
    ensures t in GetRunningJobs(Execute(s, actions), Some(subject), Received(latest, stamp), identifier, override)
  {
    var s' := Execute(s, actions);
    RunsMoveForward(s, actions);
    CutoffArrives(TimeAttribute(latest), stamp);
    assert About(s', p, subject);
    assert Selected(s', subject, latest, t, p);
  }

  /** Without pipelines there is no cutoff; the helper then cancels nothing, where the bare query would not filter. */
  lemma {:induction false} NoCutoffCancelsNothing(
    s: State, s': State, subject: Subject, latest: Option<int>, stamp: Time -> real,
    identifier: Option<string>, override: Option<set<Pair>>, names: Option<set<string>>, bound: int)
    requires LatestDatetime(s, subject, latest) && forall p :: !About(s, p, subject)
    ensures latest == None
    ensures GetRunningJobs(s', Some(subject), Received(latest, stamp), identifier, override) == {}
    ensures GetRunning(s', subject, Some(bound), identifier, names) <= GetRunning(s', subject, latest, identifier, names)
  {
  }
}
