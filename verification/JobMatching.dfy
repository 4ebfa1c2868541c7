/**
Which jobs of a package configuration an event concerns, which handlers react to it, and which
jobs each of the handlers gets.  The tables from job types to handlers, the events a handler
supports and the handlers behind a comment command are parameters.
*/
module JobMatching {
  import opened Options

  datatype JobType = KojiBuild | BodhiUpdate | PullFromUpstream | KojiBuildTag | OtherType(name: string)

  datatype Trigger = PullRequest | Commit | Release | OnKojiBuild | OtherTrigger(name: string)

  datatype Labels = Labels(present: set<string>, absent: set<string>)

  /** A view of a job for one of its packages; `others` stands for all attributes not named here. */
  datatype Job = Job(
    kind: JobType, trigger: Trigger, package: string, identifier: Option<string>, manualTrigger: bool, labels: Labels,
    sidetagGroup: Option<string>, others: nat)

  /** The classes of events that are matched explicitly; comments come with the commands in them. */
  datatype Flavour =
    | PagurePrComment(commands: seq<string>) | IssueComment | KojiTagBuild(packageName: Option<string>) | OtherEvent

  /** `rerun` has the job identifier of a check rerun; `packages` the downstream name of each package. */
  datatype Event = Event(
    trigger: Trigger, flavour: Flavour, rerun: Option<Option<string>>, manualOrResult: bool, forgeIndependent: bool,
    views: seq<Job>, packages: seq<(string, Option<string>)>)

  type Handler = nat

  // ---- Keeping the first of each class ----

  /** The loops that append a job unless one that is the same was appended before. */
  function KeepFirst(views: seq<Job>, eligible: Job -> bool, same: (Job, Job) -> bool): seq<Job> {
    if views == [] then [] else
      var kept, job := KeepFirst(views[..|views| - 1], eligible, same), views[|views| - 1];
      if eligible(job) && !(exists k | 0 <= k < |kept| :: same(job, kept[k])) then kept + [job] else kept
  }

  /** Job `i` is the first of its class, of those that are eligible. */
  ghost predicate IsFirst(views: seq<Job>, eligible: Job -> bool, same: (Job, Job) -> bool, i: int) {
    && 0 <= i < |views| && eligible(views[i])
    && forall j | 0 <= j < i && eligible(views[j]) :: !same(views[i], views[j])
  }

  ghost predicate Increasing(indices: seq<int>) {
    forall k, l | 0 <= k < l < |indices| :: indices[k] < indices[l]
  }

  ghost predicate PickedAt(views: seq<Job>, indices: seq<int>, jobs: seq<Job>) {
    && Increasing(indices) && |indices| == |jobs|
    && forall k | 0 <= k < |indices| :: 0 <= indices[k] < |views| && jobs[k] == views[indices[k]]
  }

  /** The jobs come in the order in which they are configured. */
  ghost predicate InConfigOrder(views: seq<Job>, jobs: seq<Job>) {
    exists indices :: PickedAt(views, indices, jobs)
  }

  ghost predicate PartialEquivalence(same: (Job, Job) -> bool) {
    && (forall a, b :: same(a, b) ==> same(b, a))
    && (forall a, b, c :: same(a, b) && same(b, c) ==> same(a, c))
  }

  /** The loop keeps exactly the first members of the classes, in the order of the configuration. */
  lemma {:induction false} KeepFirstKeepsTheFirst(views: seq<Job>, eligible: Job -> bool, same: (Job, Job) -> bool)
    returns (indices: seq<int>)
    requires PartialEquivalence(same)
    ensures PickedAt(views, indices, KeepFirst(views, eligible, same))
    ensures forall i :: i in indices <==> IsFirst(views, eligible, same, i)
  {
    if views == [] {
      indices := [];
    } else {
      var rest, last := views[..|views| - 1], |views| - 1;
      var before := KeepFirstKeepsTheFirst(rest, eligible, same);
      var kept := KeepFirst(rest, eligible, same);
      LastIsFirst(views, eligible, same, before, kept);
      indices := if IsFirst(views, eligible, same, last) then before + [last] else before;
      forall i ensures i in indices <==> IsFirst(views, eligible, same, i) {
        EarlierFirsts(views, eligible, same, i);
        assert i in before <==> IsFirst(rest, eligible, same, i);
      }
      PickedExtends(views, before, kept);
    }
  }

  lemma EarlierFirsts(views: seq<Job>, eligible: Job -> bool, same: (Job, Job) -> bool, i: int)
    requires views != []
    ensures IsFirst(views[..|views| - 1], eligible, same, i) <==> i != |views| - 1 && IsFirst(views, eligible, same, i)
  {
  }

  lemma PickedExtends(views: seq<Job>, indices: seq<int>, jobs: seq<Job>)
    requires views != [] && PickedAt(views[..|views| - 1], indices, jobs)
    ensures PickedAt(views, indices, jobs)
    ensures PickedAt(views, indices + [|views| - 1], jobs + [views[|views| - 1]])
  {
  }

  lemma LastIsFirst(
    views: seq<Job>, eligible: Job -> bool, same: (Job, Job) -> bool, indices: seq<int>, kept: seq<Job>)
    requires views != [] && PartialEquivalence(same)
    requires var rest := views[..|views| - 1];
             PickedAt(rest, indices, kept) && forall i :: i in indices <==> IsFirst(rest, eligible, same, i)
    ensures var job := views[|views| - 1];
            IsFirst(views, eligible, same, |views| - 1) <==>
            eligible(job) && !(exists k | 0 <= k < |kept| :: same(job, kept[k]))
  {
    var rest, job := views[..|views| - 1], views[|views| - 1];
    if k :| 0 <= k < |kept| && same(job, kept[k]) {
      assert indices[k] in indices;
      assert eligible(views[indices[k]]) && same(job, views[indices[k]]);
    }
    if j :| 0 <= j < |rest| && eligible(views[j]) && same(job, views[j]) {
      var i := FirstOfClass(rest, eligible, same, j);
      assert i in indices;
      var k :| 0 <= k < |indices| && indices[k] == i;
      assert same(job, kept[k]);
    }
  }

  /** Every eligible job that is the same as some job has a first one of its class. */
  lemma {:induction false} FirstOfClass(views: seq<Job>, eligible: Job -> bool, same: (Job, Job) -> bool, j: int) returns (i: int)
    requires PartialEquivalence(same) && 0 <= j < |views| && eligible(views[j])
    ensures i <= j && IsFirst(views, eligible, same, i) && (i == j || same(views[j], views[i]))
    decreases j
  {
    if IsFirst(views, eligible, same, j) {
      i := j;
    } else {
      var e :| 0 <= e < j && eligible(views[e]) && same(views[j], views[e]);
      i := FirstOfClass(views, eligible, same, e);
    }
  }

  // ---- get_jobs_matching_event ----

  /** The condition of the first loop but for the duplicates. */
  predicate MatchesTrigger(event: Event, labelsMatch: Labels -> bool, job: Job) {
    && job.trigger == event.trigger
    && (event.rerun.Some? ==> event.rerun.value == job.identifier)
    && (job.manualTrigger ==> event.manualOrResult)
    && (job.trigger != PullRequest || (job.labels.present == {} && job.labels.absent == {}) || !event.forgeIndependent
        || labelsMatch(job.labels))
  }

  predicate SameJob(a: Job, b: Job) {
    a == b
  }

  // ---- check_explicit_matching ----

  /** compare_jobs_without_triggers, which the loops only ask for koji_build jobs. */
  predicate SameKojiBuild(a: Job, b: Job) {
    a.kind == KojiBuild && a == b.(trigger := a.trigger)
  }

  predicate RetriggeredDownstream(job: Job) {
    (job.kind == KojiBuild || job.kind == BodhiUpdate) && (job.trigger == Commit || job.trigger == OnKojiBuild)
  }

  predicate KojiTagCommand(commands: seq<string>) {
    commands != [] && commands[0] == "koji-tag"
  }

  /** What a comment in a dist-git pull request can trigger again. */
  predicate EligibleInPullRequest(commands: seq<string>, job: Job) {
    || (RetriggeredDownstream(job) && (job.kind == KojiBuild && KojiTagCommand(commands) ==> HasSidetagGroup(job)))
    || (job.kind == PullFromUpstream && job.trigger == Release)
  }

  predicate HasSidetagGroup(job: Job) {
    job.sidetagGroup.Some? && job.sidetagGroup.value != ""
  }

  predicate EligibleForEvent(event: Event, job: Job) {
    match event.flavour
    case PagurePrComment(commands) => event.trigger == PullRequest && EligibleInPullRequest(commands, job)
    case IssueComment => event.trigger == Release && RetriggeredDownstream(job)
    case _ => false
  }

  function ExplicitRule(event: Event): Job -> bool {
    job => EligibleForEvent(event, job)
  }

  function TriggerRule(event: Event, labelsMatch: Labels -> bool): Job -> bool {
    job => MatchesTrigger(event, labelsMatch, job)
  }

  function PackageRule(package: string): Job -> bool {
    (job: Job) => job.package == package
  }

  /** The job that is made up for a tagged Koji build, for the first package of that name. */
  function TagJobs(packages: seq<(string, Option<string>)>, packageName: Option<string>): seq<Job> {
    if packages == [] then []
    else if packages[0].1 == packageName
    then [Job(KojiBuildTag, OnKojiBuild, packages[0].0, None, false, Labels({}, {}), None, 0)]
    else TagJobs(packages[1..], packageName)
  }

  function Explicit(event: Event): seq<Job> {
    if event.flavour.KojiTagBuild? then TagJobs(event.packages, event.flavour.packageName)
    else KeepFirst(event.views, ExplicitRule(event), SameKojiBuild)
  }

  function Matched(event: Event, labelsMatch: Labels -> bool): seq<Job> {
    KeepFirst(event.views, TriggerRule(event, labelsMatch), SameJob)
  }

  /** The filter for monorepos. */
  function OfPackage(jobs: seq<Job>, package: Option<string>): seq<Job> {
    if package.None? || package.value == "" then jobs
    else Filter(jobs, PackageRule(package.value))
  }

  function Filter(jobs: seq<Job>, p: Job -> bool): (kept: seq<Job>)
    ensures forall job :: job in kept <==> job in jobs && p(job)
  {
    if jobs == [] then [] else
      var kept := Filter(jobs[..|jobs| - 1], p);
      assert jobs == jobs[..|jobs| - 1] + [jobs[|jobs| - 1]];
      if p(jobs[|jobs| - 1]) then kept + [jobs[|jobs| - 1]] else kept
  }

  method AnySame(job: Job, jobs: seq<Job>) returns (found: bool)
    ensures found <==> exists k | 0 <= k < |jobs| :: SameKojiBuild(job, jobs[k])
  {
    found := exists k | 0 <= k < |jobs| :: SameKojiBuild(job, jobs[k]);
  }

  method CheckPagurePrComment(event: Event) returns (matchingJobs: seq<Job>)
    requires event.flavour.PagurePrComment?
    ensures matchingJobs == Explicit(event)
  {
    matchingJobs := [];
    for n := 0 to |event.views|
      invariant matchingJobs == KeepFirst(event.views[..n], ExplicitRule(event), SameKojiBuild)
    {
      assert event.views[..n + 1][..n] == event.views[..n];
      var job := event.views[n];
      if RetriggeredDownstream(job) && event.trigger == PullRequest {
        if job.kind == KojiBuild {
          // one job of each class is enough
          var duplicate := AnySame(job, matchingJobs);
          if duplicate {
            continue;
          }
          // the command is about sidetags, so a job without a group is passed over
          if KojiTagCommand(event.flavour.commands) && !HasSidetagGroup(job) {
            continue;
          }
        }
        matchingJobs := matchingJobs + [job];
      } else if job.kind == PullFromUpstream && job.trigger == Release && event.trigger == PullRequest {
        matchingJobs := matchingJobs + [job];
      }
    }
    assert event.views[..|event.views|] == event.views;
  }

  method CheckIssueComment(event: Event) returns (matchingJobs: seq<Job>)
    requires event.flavour.IssueComment?
    ensures matchingJobs == Explicit(event)
  {
    matchingJobs := [];
    for n := 0 to |event.views|
      invariant matchingJobs == KeepFirst(event.views[..n], ExplicitRule(event), SameKojiBuild)
    {
      assert event.views[..n + 1][..n] == event.views[..n];
      var job := event.views[n];
      if RetriggeredDownstream(job) && event.trigger == Release {
        var duplicate := AnySame(job, matchingJobs);
        if job.kind == KojiBuild && duplicate {
          continue;
        }
        matchingJobs := matchingJobs + [job];
      }
    }
    assert event.views[..|event.views|] == event.views;
  }

  method CheckKojiTagBuild(event: Event) returns (matchingJobs: seq<Job>)
    requires event.flavour.KojiTagBuild?
    ensures matchingJobs == Explicit(event)
  {
    matchingJobs := [];
    for n := 0 to |event.packages|
      invariant matchingJobs == []
      invariant TagJobs(event.packages, event.flavour.packageName) == TagJobs(event.packages[n..], event.flavour.packageName)
    {
      var (package, downstreamName) := event.packages[n];
      assert event.packages[n..][1..] == event.packages[n + 1..];
      if downstreamName == event.flavour.packageName {
        matchingJobs := matchingJobs + [Job(KojiBuildTag, OnKojiBuild, package, None, false, Labels({}, {}), None, 0)];
        return;
      }
    }
  }

  method CheckExplicitMatching(event: Event) returns (matchingJobs: seq<Job>)
    ensures matchingJobs == Explicit(event)
  {
    match event.flavour
    case PagurePrComment(_) => matchingJobs := CheckPagurePrComment(event);
    case IssueComment => matchingJobs := CheckIssueComment(event);
    case KojiTagBuild(_) => matchingJobs := CheckKojiTagBuild(event);
    case OtherEvent =>
      matchingJobs := [];
      NoneEligible(event.views, event);
  }

  lemma {:induction false} NoneEligible(views: seq<Job>, event: Event)
    requires event.flavour.OtherEvent?
    ensures KeepFirst(views, ExplicitRule(event), SameKojiBuild) == []
  {
    if views != [] {
      NoneEligible(views[..|views| - 1], event);
    }
  }

  method GetJobsMatchingEvent(event: Event, labelsMatch: Labels -> bool, monorepoPackage: Option<string>)
    returns (jobsMatchingTrigger: seq<Job>)
    ensures jobsMatchingTrigger == OfPackage(Matched(event, labelsMatch) + Explicit(event), monorepoPackage)
  {
    jobsMatchingTrigger := [];
    for n := 0 to |event.views|
      invariant jobsMatchingTrigger == KeepFirst(event.views[..n], TriggerRule(event, labelsMatch), SameJob)
    {
      assert event.views[..n + 1][..n] == event.views[..n];
      var job := event.views[n];
      if && job.trigger == event.trigger
         && (event.rerun.None? || event.rerun.value == job.identifier)
         && job !in jobsMatchingTrigger
         // a job to be triggered by hand waits for a person or for a result
         && (!job.manualTrigger || event.manualOrResult)
         && (|| job.trigger != PullRequest
             || !(job.labels.present != {} || job.labels.absent != {})
             || !event.forgeIndependent
             || labelsMatch(job.labels))
      {
        jobsMatchingTrigger := jobsMatchingTrigger + [job];
      }
    }
    assert event.views[..|event.views|] == event.views;
    var explicit := CheckExplicitMatching(event);
    jobsMatchingTrigger := jobsMatchingTrigger + explicit;
    if monorepoPackage.Some? && monorepoPackage.value != "" {
      jobsMatchingTrigger := Filter(jobsMatchingTrigger, PackageRule(monorepoPackage.value));
    }
  }

  // ---- get_handlers_for_event and get_config_for_handler_kls ----

  /** MAP_JOB_TYPE_TO_HANDLER and MAP_REQUIRED_JOB_TYPE_TO_HANDLER */
  datatype Tables = Tables(direct: JobType -> set<Handler>, required: JobType -> set<Handler>)

  /** The event is one that the handler supports, and a comment or rerun asks for it, if there is one. */
  predicate HandlerMatches(supported: set<Handler>, allowed: Option<set<Handler>>, handler: Handler) {
    handler in supported && (allowed.Some? ==> handler in allowed.value)
  }

  ghost predicate IsMatching(
    tables: Tables, jobs: seq<Job>, supported: set<Handler>, allowed: Option<set<Handler>>, handler: Handler)
  {
    && HandlerMatches(supported, allowed, handler)
    && exists job :: job in jobs && handler in tables.direct(job.kind) + tables.required(job.kind)
  }

  method GetHandlersForEvent(tables: Tables, jobs: seq<Job>, supported: set<Handler>, allowed: Option<set<Handler>>)
    returns (matchingHandlers: set<Handler>)
    ensures forall handler: Handler :: handler in matchingHandlers <==> IsMatching(tables, jobs, supported, allowed, handler)
    ensures forall handler: Handler :: handler in matchingHandlers <==>
              && handler in supported && (allowed.Some? ==> handler in allowed.value)
              && exists job :: job in jobs && (handler in tables.direct(job.kind) || handler in tables.required(job.kind))
  {
    matchingHandlers := {};
    for n := 0 to |jobs|
      invariant forall handler: Handler ::
          handler in matchingHandlers <==> IsMatching(tables, jobs[..n], supported, allowed, handler)
    {
      var all := tables.direct(jobs[n].kind) + tables.required(jobs[n].kind);
      var left := all;
      while left != {}
        invariant left <= all
        invariant forall handler: Handler :: handler in matchingHandlers <==>
            || IsMatching(tables, jobs[..n], supported, allowed, handler)
            || (handler in all - left && HandlerMatches(supported, allowed, handler))
        decreases left
      {
        var handler :| handler in left;
        left := left - {handler};
        if HandlerMatches(supported, allowed, handler) {
          matchingHandlers := matchingHandlers + {handler};
        }
      }
      assert jobs[..n + 1] == jobs[..n] + [jobs[n]];
    }
    assert jobs[..|jobs|] == jobs;
  }

  function HandlesRule(table: JobType -> set<Handler>, handler: Handler): Job -> bool {
    (job: Job) => handler in table(job.kind)
  }

  /** The jobs that the handler runs, or else those that require it. */
  function ConfigsFor(tables: Tables, jobs: seq<Job>, handler: Handler): seq<Job> {
    var matchingJobs := Filter(jobs, HandlesRule(tables.direct, handler));
    if matchingJobs == [] then Filter(jobs, HandlesRule(tables.required, handler)) else matchingJobs
  }

  /** A handler is chosen exactly when it may react to the event and gets a job to work on. */
  lemma {:induction false} HandlersAndConfigsAgree(
    tables: Tables, jobs: seq<Job>, supported: set<Handler>, allowed: Option<set<Handler>>, handler: Handler)
    ensures IsMatching(tables, jobs, supported, allowed, handler) <==>
            HandlerMatches(supported, allowed, handler) && ConfigsFor(tables, jobs, handler) != []
    ensures forall job :: job in ConfigsFor(tables, jobs, handler) <==>
              && job in jobs
              && if exists other :: other in jobs && handler in tables.direct(other.kind)
                 then handler in tables.direct(job.kind) else handler in tables.required(job.kind)
  {
    var direct, required := Filter(jobs, HandlesRule(tables.direct, handler)), Filter(jobs, HandlesRule(tables.required, handler));
    if job :| job in jobs && handler in tables.direct(job.kind) + tables.required(job.kind) {
      assert job in direct || job in required;
    }
    var configs := ConfigsFor(tables, jobs, handler);
    if configs != [] {
      assert configs[0] in configs;
    }
  }

  // ---- What explicit matching promises ----

  /**
   On comments: of the eligible jobs exactly the first of each class of koji_build jobs that are
   equal up to the trigger, and all others, in the order of the configuration.
   */
  lemma {:induction false} ExplicitPicksRepresentatives(event: Event) returns (indices: seq<int>)
    requires !event.flavour.KojiTagBuild?
    ensures PickedAt(event.views, indices, Explicit(event))
    ensures forall i :: i in indices <==> IsFirst(event.views, ExplicitRule(event), SameKojiBuild, i)
    ensures forall k, l | 0 <= k < l < |Explicit(event)| :: !SameKojiBuild(Explicit(event)[l], Explicit(event)[k])
    ensures forall job | job in event.views && EligibleForEvent(event, job) ::
              exists kept :: kept in Explicit(event) && (kept == job || SameKojiBuild(job, kept))
  {
    var rule := ExplicitRule(event);
    indices := KeepFirstKeepsTheFirst(event.views, rule, SameKojiBuild);
    var jobs := Explicit(event);
    forall k, l | 0 <= k < l < |jobs| ensures !SameKojiBuild(jobs[l], jobs[k]) {
      assert indices[l] in indices && indices[k] in indices;
      assert rule(event.views[indices[k]]);
    }
    forall job | job in event.views && EligibleForEvent(event, job)
      ensures exists kept :: kept in jobs && (kept == job || SameKojiBuild(job, kept))
    {
      var j :| 0 <= j < |event.views| && event.views[j] == job;
      var i := FirstOfClass(event.views, rule, SameKojiBuild, j);
      assert i in indices;
      var k :| 0 <= k < |indices| && indices[k] == i;
      assert jobs[k] in jobs;
    }
  }

  /** What a comment picks, over the columns of the jobs; `indices` are the positions it picks. */
  lemma {:induction false} CommentPicks(event: Event) returns (indices: seq<int>)
    requires event.flavour.PagurePrComment? || event.flavour.IssueComment?
    ensures PickedAt(event.views, indices, Explicit(event))
    ensures var picked: Job -> bool := (job: Job) =>
              || ((job.kind == KojiBuild || job.kind == BodhiUpdate) && (job.trigger == Commit || job.trigger == OnKojiBuild)
                  && match event.flavour
                     case IssueComment => event.trigger == Release
                     case PagurePrComment(commands) =>
                       && event.trigger == PullRequest
                       && (job.kind == KojiBuild && commands != [] && commands[0] == "koji-tag" ==>
                             job.sidetagGroup.Some? && job.sidetagGroup.value != "")
                     case _ => false)
              || (event.flavour.PagurePrComment? && event.trigger == PullRequest
                  && job.kind == PullFromUpstream && job.trigger == Release);
            forall i :: i in indices <==>
              && 0 <= i < |event.views| && picked(event.views[i])
              && (event.views[i].kind == KojiBuild ==>
                    forall j | 0 <= j < i && picked(event.views[j]) :: event.views[j].(trigger := event.views[i].trigger) != event.views[i])
  {
    indices := ExplicitPicksRepresentatives(event);
    EligibleOverTheColumns(event);
    hide EligibleForEvent, EligibleInPullRequest, Explicit, PickedAt;
    assert forall a, b :: SameKojiBuild(a, b) <==> a.kind == KojiBuild && b.(trigger := a.trigger) == a;
  }

  lemma EligibleOverTheColumns(event: Event)
    requires event.flavour.PagurePrComment? || event.flavour.IssueComment?
    ensures forall job :: EligibleForEvent(event, job) <==>
              || ((job.kind == KojiBuild || job.kind == BodhiUpdate) && (job.trigger == Commit || job.trigger == OnKojiBuild)
                  && match event.flavour
                     case IssueComment => event.trigger == Release
                     case PagurePrComment(commands) =>
                       && event.trigger == PullRequest
                       && (job.kind == KojiBuild && commands != [] && commands[0] == "koji-tag" ==>
                             job.sidetagGroup.Some? && job.sidetagGroup.value != "")
                     case _ => false)
              || (event.flavour.PagurePrComment? && event.trigger == PullRequest
                  && job.kind == PullFromUpstream && job.trigger == Release)
  {
  }

  /** A tagged Koji build makes one job, for the first package whose downstream name it has, if there is one. */
  lemma {:induction false} TagJobIsForTheFirstPackage(event: Event, n: nat)
    requires event.flavour.KojiTagBuild? && n <= |event.packages|
    requires forall m | 0 <= m < n :: event.packages[m].1 != event.flavour.packageName
    requires n < |event.packages| ==> event.packages[n].1 == event.flavour.packageName
    ensures n == |event.packages| ==> Explicit(event) == []
    ensures n < |event.packages| ==>
              Explicit(event) == [Job(KojiBuildTag, OnKojiBuild, event.packages[n].0, None, false, Labels({}, {}), None, 0)]
  {
    TagJobsSkip(event.packages, event.flavour.packageName, n);
    assert n < |event.packages| ==> event.packages[n..][0] == event.packages[n];
  }

  lemma {:induction false} TagJobsSkip(packages: seq<(string, Option<string>)>, packageName: Option<string>, n: nat)
    requires n <= |packages| && forall m | 0 <= m < n :: packages[m].1 != packageName
    ensures TagJobs(packages, packageName) == TagJobs(packages[n..], packageName)
  {
    if n > 0 {
      TagJobsSkip(packages[1..], packageName, n - 1);
      assert packages[1..][n - 1..] == packages[n..];
    } else {
      assert packages[0..] == packages;
    }
  }

  /** The package filter keeps the jobs of the package, and all of them without a package. */
  lemma PackageFilterKeeps(jobs: seq<Job>, package: Option<string>)
    ensures forall job :: job in OfPackage(jobs, package) <==>
              job in jobs && (package == None || package == Some("") || package == Some(job.package))
    ensures package == None || package == Some("") ==> OfPackage(jobs, package) == jobs
  {
  }

  lemma {:induction false} KeptIsEligible(views: seq<Job>, eligible: Job -> bool, same: (Job, Job) -> bool)
    ensures forall job | job in KeepFirst(views, eligible, same) :: job in views && eligible(job)
  {
    if views != [] {
      KeptIsEligible(views[..|views| - 1], eligible, same);
      assert views == views[..|views| - 1] + [views[|views| - 1]];
    }
  }

  /** On comments no job is matched both by its trigger and explicitly. */
  lemma {:induction false} ExplicitAddsNoDuplicates(event: Event, labelsMatch: Labels -> bool)
    requires !event.flavour.KojiTagBuild?
    ensures forall job :: !(job in Matched(event, labelsMatch) && job in Explicit(event))
  {
    KeptIsEligible(event.views, TriggerRule(event, labelsMatch), SameJob);
    KeptIsEligible(event.views, ExplicitRule(event), SameKojiBuild);
    assert forall job :: TriggerRule(event, labelsMatch)(job) ==> job.trigger == event.trigger;
    assert forall job :: ExplicitRule(event)(job) ==> job.trigger != event.trigger;
  }

  lemma TriggerOverTheColumns(event: Event, labelsMatch: Labels -> bool)
    ensures forall job :: MatchesTrigger(event, labelsMatch, job) <==>
              && job.trigger == event.trigger
              && (event.rerun.Some? ==> job.identifier == event.rerun.value)
              && (!job.manualTrigger || event.manualOrResult)
              && (job.trigger == PullRequest && event.forgeIndependent && job.labels != Labels({}, {}) ==> labelsMatch(job.labels))
  {
  }

  /** The jobs matched by their trigger are pairwise different, and none that matches is missing. */
  lemma {:induction false} MatchedIsASetInConfigOrder(event: Event, labelsMatch: Labels -> bool)
    ensures InConfigOrder(event.views, Matched(event, labelsMatch))
    ensures forall k, l | 0 <= k < l < |Matched(event, labelsMatch)| :: Matched(event, labelsMatch)[k] != Matched(event, labelsMatch)[l]
    ensures forall job :: job in Matched(event, labelsMatch) <==>
              && job in event.views && job.trigger == event.trigger
              && (event.rerun.Some? ==> job.identifier == event.rerun.value)
              && (!job.manualTrigger || event.manualOrResult)
              && (job.trigger == PullRequest && event.forgeIndependent && job.labels != Labels({}, {}) ==> labelsMatch(job.labels))
  {
    TriggerOverTheColumns(event, labelsMatch);
    var rule, jobs := TriggerRule(event, labelsMatch), Matched(event, labelsMatch);
    var indices := KeepFirstKeepsTheFirst(event.views, rule, SameJob);
    KeptIsEligible(event.views, rule, SameJob);
    forall k, l | 0 <= k < l < |jobs| ensures jobs[k] != jobs[l] {
      assert indices[l] in indices && indices[k] in indices;
      assert rule(event.views[indices[k]]);
    }
    forall job | job in event.views && MatchesTrigger(event, labelsMatch, job) ensures job in jobs {
      var j :| 0 <= j < |event.views| && event.views[j] == job;
      var i := FirstOfClass(event.views, rule, SameJob, j);
      assert i in indices;
      var k :| 0 <= k < |indices| && indices[k] == i;
      assert jobs[k] == job;
    }
  }

  // ---- The order of the configuration ----

  lemma {:induction false} FilterKeepsOrder(views: seq<Job>, jobs: seq<Job>, p: Job -> bool)
    requires InConfigOrder(views, jobs)
    ensures InConfigOrder(views, Filter(jobs, p))
  {
    var indices :| PickedAt(views, indices, jobs);
    var kept := FilteredIndices(views, indices, jobs, p);
  }

  lemma PickedAppends(views: seq<Job>, indices: seq<int>, jobs: seq<Job>, i: int)
    requires PickedAt(views, indices, jobs) && 0 <= i < |views|
    requires forall k | 0 <= k < |indices| :: indices[k] < i
    ensures PickedAt(views, indices + [i], jobs + [views[i]])
  {
  }

  lemma {:induction false} FilteredIndices(views: seq<Job>, indices: seq<int>, jobs: seq<Job>, p: Job -> bool)
    returns (kept: seq<int>)
    requires PickedAt(views, indices, jobs)
    ensures PickedAt(views, kept, Filter(jobs, p))
    ensures forall i :: i in kept <==> i in indices && p(views[i])
  {
    if jobs == [] {
      kept := [];
    } else {
      var n := |jobs| - 1;
      assert indices == indices[..n] + [indices[n]];
      kept := FilteredIndices(views, indices[..n], jobs[..n], p);
      if p(jobs[n]) {
        PickedAppends(views, kept, Filter(jobs[..n], p), indices[n]);
        kept := kept + [indices[n]];
      }
    }
  }

  /** A handler gets its jobs in the order in which all jobs come. */
  lemma {:induction false} ConfigsKeepTheOrder(views: seq<Job>, tables: Tables, jobs: seq<Job>, handler: Handler)
    requires InConfigOrder(views, jobs)
    ensures InConfigOrder(views, ConfigsFor(tables, jobs, handler))
  {
    FilterKeepsOrder(views, jobs, HandlesRule(tables.direct, handler));
    FilterKeepsOrder(views, jobs, HandlesRule(tables.required, handler));
  }

  // ---- The jobs of one handler ----

  predicate InPackage(package: Option<string>, job: Job) {
    package.Some? && package.value != "" ==> job.package == package.value
  }

  /** The event concerns the job: by its trigger or explicitly, and in the package asked for. */
  predicate Concerns(event: Event, labelsMatch: Labels -> bool, package: Option<string>, job: Job) {
    (MatchesTrigger(event, labelsMatch, job) || EligibleForEvent(event, job)) && InPackage(package, job)
  }

  /** The handler is looked up among the job types it runs, if a concerned job has one, else among those that require it. */
  ghost function TableFor(
    event: Event, labelsMatch: Labels -> bool, package: Option<string>, tables: Tables, handler: Handler): JobType -> set<Handler>
  {
    if exists job :: job in event.views && Concerns(event, labelsMatch, package, job) && handler in tables.direct(job.kind)
    then tables.direct else tables.required
  }

  /** The jobs that the handler would be given of those that match. */
  function Given(package: Option<string>, table: JobType -> set<Handler>, handler: Handler): Job -> bool {
    (job: Job) => InPackage(package, job) && handler in table(job.kind)
  }

  /** What get_config_for_handler_kls returns. */
  function JobsFor(
    event: Event, labelsMatch: Labels -> bool, package: Option<string>, tables: Tables, handler: Handler): seq<Job>
  {
    ConfigsFor(tables, OfPackage(Matched(event, labelsMatch) + Explicit(event), package), handler)
  }

  lemma {:induction false} FilterJoined(a: seq<Job>, b: seq<Job>, p: Job -> bool)
    ensures Filter(a + b, p) == Filter(a, p) + Filter(b, p)
  {
    if b == [] {
      assert a + b == a;
    } else {
      assert (a + b)[..|a + b| - 1] == a + b[..|b| - 1];
      FilterJoined(a, b[..|b| - 1], p);
    }
  }

  lemma {:induction false} FilterAgrees(jobs: seq<Job>, p: Job -> bool, q: Job -> bool)
    requires forall job :: job in jobs ==> p(job) == q(job)
    ensures Filter(jobs, p) == Filter(jobs, q)
  {
    if jobs != [] {
      FilterAgrees(jobs[..|jobs| - 1], p, q);
    }
  }

  lemma {:induction false} FilterTwice(jobs: seq<Job>, p: Job -> bool, q: Job -> bool, both: Job -> bool)
    requires forall job :: both(job) == (p(job) && q(job))
    ensures Filter(Filter(jobs, p), q) == Filter(jobs, both)
  {
    if jobs != [] {
      FilterTwice(jobs[..|jobs| - 1], p, q, both);
    }
  }

  lemma {:induction false} OfPackageAndTable(
    jobs: seq<Job>, package: Option<string>, table: JobType -> set<Handler>, handler: Handler)
    ensures Filter(OfPackage(jobs, package), HandlesRule(table, handler)) == Filter(jobs, Given(package, table, handler))
  {
    if package.Some? && package.value != "" {
      var p, q, both := PackageRule(package.value), HandlesRule(table, handler), Given(package, table, handler);
      forall job: Job ensures both(job) == (p(job) && q(job)) {
        assert p(job) == (job.package == package.value) && q(job) == (handler in table(job.kind));
        assert both(job) == (InPackage(package, job) && handler in table(job.kind));
      }
      FilterTwice(jobs, p, q, both);
    } else {
      var q, both := HandlesRule(table, handler), Given(package, table, handler);
      forall job: Job ensures both(job) == q(job) {
        assert q(job) == (handler in table(job.kind)) && both(job) == (InPackage(package, job) && handler in table(job.kind));
      }
      FilterAgrees(jobs, both, q);
    }
  }

  /** A concerned job is matched, or another one of its type and package is. */
  lemma {:induction false} ConcernedIsMatched(event: Event, labelsMatch: Labels -> bool, job: Job) returns (kept: Job)
    requires !event.flavour.KojiTagBuild? && job in event.views
    requires MatchesTrigger(event, labelsMatch, job) || EligibleForEvent(event, job)
    ensures kept in Matched(event, labelsMatch) + Explicit(event) && kept.kind == job.kind && kept.package == job.package
  {
    MatchedIsASetInConfigOrder(event, labelsMatch);
    if MatchesTrigger(event, labelsMatch, job) {
      kept := job;
    } else {
      var indices := ExplicitPicksRepresentatives(event);
      kept :| kept in Explicit(event) && (kept == job || SameKojiBuild(job, kept));
    }
  }

  /** The direct table has jobs for the handler exactly when a concerned job of the configuration is in it. */
  lemma {:induction false} DirectJobsExactlyWhen(
    event: Event, labelsMatch: Labels -> bool, package: Option<string>, tables: Tables, handler: Handler)
    requires !event.flavour.KojiTagBuild?
    ensures Filter(Matched(event, labelsMatch) + Explicit(event), Given(package, tables.direct, handler)) != [] <==>
            exists job :: job in event.views && Concerns(event, labelsMatch, package, job) && handler in tables.direct(job.kind)
  {
    var jobs, given := Matched(event, labelsMatch) + Explicit(event), Given(package, tables.direct, handler);
    var direct := Filter(jobs, given);
    if job :| job in event.views && Concerns(event, labelsMatch, package, job) && handler in tables.direct(job.kind) {
      var kept := ConcernedIsMatched(event, labelsMatch, job);
      assert kept in direct;
    }
    if direct != [] {
      var job := direct[0];
      assert job in direct && job in jobs && given(job);
      KeptIsEligible(event.views, TriggerRule(event, labelsMatch), SameJob);
      KeptIsEligible(event.views, ExplicitRule(event), SameKojiBuild);
      assert job in event.views && Concerns(event, labelsMatch, package, job) && handler in tables.direct(job.kind);
    }
  }

  /** The handler's list: what its table gives it of the jobs matched by trigger, then of the others. */
  lemma {:induction false} JobsForInTwoParts(
    event: Event, labelsMatch: Labels -> bool, package: Option<string>, tables: Tables, handler: Handler)
    requires !event.flavour.KojiTagBuild?
    ensures var given := Given(package, TableFor(event, labelsMatch, package, tables, handler), handler);
            JobsFor(event, labelsMatch, package, tables, handler) ==
            Filter(Matched(event, labelsMatch), given) + Filter(Explicit(event), given)
  {
    hide Matched, Explicit, Filter, Given, Concerns, OfPackage;
    var jobs := Matched(event, labelsMatch) + Explicit(event);
    OfPackageAndTable(jobs, package, tables.direct, handler);
    OfPackageAndTable(jobs, package, tables.required, handler);
    DirectJobsExactlyWhen(event, labelsMatch, package, tables, handler);
    FilterJoined(Matched(event, labelsMatch), Explicit(event),
                 Given(package, TableFor(event, labelsMatch, package, tables, handler), handler));
  }

  /** The handler gets the view at this position because of its trigger. */
  ghost predicate GivenByTrigger(
    event: Event, labelsMatch: Labels -> bool, package: Option<string>, tables: Tables, handler: Handler, i: int)
  {
    && IsFirst(event.views, TriggerRule(event, labelsMatch), SameJob, i) && InPackage(package, event.views[i])
    && handler in TableFor(event, labelsMatch, package, tables, handler)(event.views[i].kind)
  }

  /** The handler gets the view at this position by explicit matching. */
  ghost predicate GivenExplicitly(
    event: Event, labelsMatch: Labels -> bool, package: Option<string>, tables: Tables, handler: Handler, i: int)
  {
    && IsFirst(event.views, ExplicitRule(event), SameKojiBuild, i) && InPackage(package, event.views[i])
    && handler in TableFor(event, labelsMatch, package, tables, handler)(event.views[i].kind)
  }

  lemma {:induction false} FirstsInFilter(views: seq<Job>, eligible: Job -> bool, same: (Job, Job) -> bool, p: Job -> bool)
    returns (indices: seq<int>)
    requires PartialEquivalence(same)
    ensures PickedAt(views, indices, Filter(KeepFirst(views, eligible, same), p))
    ensures forall i :: i in indices <==> IsFirst(views, eligible, same, i) && p(views[i])
  {
    var all := KeepFirstKeepsTheFirst(views, eligible, same);
    indices := FilteredIndices(views, all, KeepFirst(views, eligible, same), p);
  }

  /** The jobs at `indices` stand once more, in the same order, behind all the given positions. */
  ghost predicate StandBehind(views: seq<Job>, indices: seq<int>, later: seq<int>, first: seq<int>) {
    && |later| == |indices| && Increasing(later)
    && forall k | 0 <= k < |later| ::
         && 0 <= indices[k] < |views| && 0 <= later[k] < |views| && views[later[k]] == views[indices[k]]
         && forall i | i in first :: i < later[k]
  }

  /** Nothing equal to a job of `first` is configured before it. */
  ghost predicate Earliest(views: seq<Job>, first: seq<int>) {
    forall i, j | i in first && 0 <= j < i < |views| :: views[j] != views[i]
  }

  /** A list whose first part stands as early as can be is in order exactly when the rest stands behind it. */
  lemma {:induction false} JoinedInOrderExactlyWhen(views: seq<Job>, first: seq<int>, second: seq<int>, a: seq<Job>, b: seq<Job>)
    requires PickedAt(views, first, a) && PickedAt(views, second, b) && Earliest(views, first)
    ensures InConfigOrder(views, a + b) <==> exists later :: StandBehind(views, second, later, first)
  {
    if InConfigOrder(views, a + b) {
      var indices :| PickedAt(views, indices, a + b);
      var later := indices[|a|..];
      forall k, l | 0 <= k < |later| && 0 <= l < |first| ensures first[l] < later[k] && views[later[k]] == views[second[k]] {
        assert (a + b)[l] == a[l] && (a + b)[|a| + k] == b[k];
        assert first[l] in first && indices[l] < indices[|a| + k];
      }
      forall k | 0 <= k < |later| ensures views[later[k]] == views[second[k]] {
        assert (a + b)[|a| + k] == b[k];
      }
      assert StandBehind(views, second, later, first);
    }
    if later :| StandBehind(views, second, later, first) {
      forall k, l | 0 <= k < |first| && 0 <= l < |later| ensures first[k] < later[l] {
        assert first[k] in first;
      }
      assert PickedAt(views, first + later, a + b);
    }
  }

  /**
   A handler gets its jobs in the order of the configuration exactly when those that it gets
   explicitly stand, possibly as later copies, behind all those that it gets because of their trigger.
   */
  lemma {:induction false} HandlerJobsInOrderExactlyWhen(
    event: Event, labelsMatch: Labels -> bool, package: Option<string>, tables: Tables, handler: Handler)
    returns (byTrigger: seq<int>, explicitly: seq<int>)
    requires !event.flavour.KojiTagBuild?
    ensures Increasing(byTrigger) && Increasing(explicitly)
    ensures forall i :: i in byTrigger <==> GivenByTrigger(event, labelsMatch, package, tables, handler, i)
    ensures forall i :: i in explicitly <==> GivenExplicitly(event, labelsMatch, package, tables, handler, i)
    ensures InConfigOrder(event.views, JobsFor(event, labelsMatch, package, tables, handler)) <==>
            exists later :: StandBehind(event.views, explicitly, later, byTrigger)
  {
    var given := Given(package, TableFor(event, labelsMatch, package, tables, handler), handler);
    hide JobsFor, Filter, TableFor, Concerns, KeepFirst;
    byTrigger := FirstsInFilter(event.views, TriggerRule(event, labelsMatch), SameJob, given);
    explicitly := FirstsInFilter(event.views, ExplicitRule(event), SameKojiBuild, given);
    JobsForInTwoParts(event, labelsMatch, package, tables, handler);
    assert Earliest(event.views, byTrigger);
    JoinedInOrderExactlyWhen(event.views, byTrigger, explicitly,
                             Filter(Matched(event, labelsMatch), given), Filter(Explicit(event), given));
  }

  /** No job that the handler gets explicitly is configured before one that it gets because of its trigger. */
  ghost predicate TriggersFirst(
    event: Event, labelsMatch: Labels -> bool, package: Option<string>, tables: Tables, handler: Handler)
  {
    forall i, j | GivenExplicitly(event, labelsMatch, package, tables, handler, i)
                  && GivenByTrigger(event, labelsMatch, package, tables, handler, j) :: j < i
  }

  /** No job that the handler gets explicitly is configured a second time further down. */
  ghost predicate NoLaterCopies(
    event: Event, labelsMatch: Labels -> bool, package: Option<string>, tables: Tables, handler: Handler)
  {
    forall i, j | GivenExplicitly(event, labelsMatch, package, tables, handler, i) && i < j < |event.views| ::
      event.views[j] != event.views[i]
  }

  /** Positions decide: they always suffice, and without later copies they are needed. */
  lemma {:induction false} HandlerJobsInOrderByPosition(
    event: Event, labelsMatch: Labels -> bool, package: Option<string>, tables: Tables, handler: Handler)
    requires !event.flavour.KojiTagBuild?
    ensures TriggersFirst(event, labelsMatch, package, tables, handler) ==>
              InConfigOrder(event.views, JobsFor(event, labelsMatch, package, tables, handler))
    ensures NoLaterCopies(event, labelsMatch, package, tables, handler) ==>
              (InConfigOrder(event.views, JobsFor(event, labelsMatch, package, tables, handler)) <==>
               TriggersFirst(event, labelsMatch, package, tables, handler))
  {
    hide JobsFor, GivenByTrigger, GivenExplicitly;
    var byTrigger, explicitly := HandlerJobsInOrderExactlyWhen(event, labelsMatch, package, tables, handler);
    if TriggersFirst(event, labelsMatch, package, tables, handler) {
      forall k | 0 <= k < |explicitly|
        ensures 0 <= explicitly[k] < |event.views| && forall i | i in byTrigger :: i < explicitly[k]
      {
        assert explicitly[k] in explicitly;
        GivenIsAView(event, labelsMatch, package, tables, handler, explicitly[k]);
      }
      assert StandBehind(event.views, explicitly, explicitly, byTrigger);
    }
    if NoLaterCopies(event, labelsMatch, package, tables, handler)
       && InConfigOrder(event.views, JobsFor(event, labelsMatch, package, tables, handler))
    {
      var later :| StandBehind(event.views, explicitly, later, byTrigger);
      forall i, j | i in explicitly && j in byTrigger ensures j < i {
        var k :| 0 <= k < |explicitly| && explicitly[k] == i;
        assert later[k] <= i && j < later[k];
      }
    }
  }

  lemma GivenIsAView(
    event: Event, labelsMatch: Labels -> bool, package: Option<string>, tables: Tables, handler: Handler, i: int)
    requires GivenExplicitly(event, labelsMatch, package, tables, handler, i)
    ensures 0 <= i < |event.views|
  {
  }

  // ---- A configuration whose order is not kept, and one with copies ----

  /** A koji_build job for commits, and a different one for pull requests. */
  const EARLY := Job(KojiBuild, Commit, "p", None, false, Labels({}, {}), None, 0)
  const LATE := Job(KojiBuild, PullRequest, "p", None, false, Labels({}, {}), None, 1)

  /** Somebody comments on a dist-git pull request. */
  function CommentOn(views: seq<Job>): Event {
    Event(PullRequest, PagurePrComment([]), None, false, false, views, [])
  }

  lemma {:induction false} CommentMatchesLate(views: seq<Job>, labelsMatch: Labels -> bool)
    requires views == [EARLY, LATE] || views == [EARLY, LATE, EARLY]
    ensures Matched(CommentOn(views), labelsMatch) == [LATE]
  {
    var rule := TriggerRule(CommentOn(views), labelsMatch);
    assert [EARLY, LATE, EARLY][..2] == [EARLY, LATE] && [EARLY, LATE][..1] == [EARLY] && [EARLY][..0] == [];
    assert KeepFirst([EARLY], rule, SameJob) == [] && KeepFirst([EARLY, LATE], rule, SameJob) == [LATE];
  }

  lemma EarlyIsPicked(event: Event)
    requires event.flavour == PagurePrComment([]) && event.trigger == PullRequest
    ensures ExplicitRule(event)(EARLY) && !ExplicitRule(event)(LATE) && SameKojiBuild(EARLY, EARLY)
  {
  }

  /** Of a job that is the same as itself, one that is not eligible and perhaps a copy, the first is kept. */
  lemma {:induction false} KeepFirstOfCopies(a: Job, b: Job, eligible: Job -> bool, same: (Job, Job) -> bool)
    requires eligible(a) && !eligible(b) && same(a, a)
    ensures KeepFirst([a, b], eligible, same) == [a] && KeepFirst([a, b, a], eligible, same) == [a]
  {
    assert [a, b, a][..2] == [a, b] && [a, b][..1] == [a] && [a][..0] == [];
    assert KeepFirst([a], eligible, same) == [a];
    assert KeepFirst([a, b], eligible, same) == [a];
    assert same(a, [a][0]);
  }

  lemma {:induction false} CommentPicksEarly(views: seq<Job>)
    requires views == [EARLY, LATE] || views == [EARLY, LATE, EARLY]
    ensures Explicit(CommentOn(views)) == [EARLY]
  {
    hide KeepFirst, SameKojiBuild, ExplicitRule;
    EarlyIsPicked(CommentOn(views));
    KeepFirstOfCopies(EARLY, LATE, ExplicitRule(CommentOn(views)), SameKojiBuild);
  }

  lemma {:induction false} BuildHandlerGetsBoth(views: seq<Job>, labelsMatch: Labels -> bool, tables: Tables, handler: Handler)
    requires views == [EARLY, LATE] || views == [EARLY, LATE, EARLY]
    requires handler in tables.direct(KojiBuild)
    ensures JobsFor(CommentOn(views), labelsMatch, None, tables, handler) == [LATE, EARLY]
  {
    CommentMatchesLate(views, labelsMatch);
    CommentPicksEarly(views);
    hide Matched, Explicit;
    assert [LATE] + [EARLY] == [LATE, EARLY] && [LATE, EARLY][..1] == [LATE] && [LATE][..0] == [];
    assert Filter([LATE], HandlesRule(tables.direct, handler)) == [LATE];
  }

  /** The build handler gets the two jobs of a comment in the wrong order. */
  lemma {:induction false} OrderIsNotAlwaysKept(labelsMatch: Labels -> bool, tables: Tables, handler: Handler)
    requires handler in tables.direct(KojiBuild)
    ensures var event := CommentOn([EARLY, LATE]);
            && JobsFor(event, labelsMatch, None, tables, handler) == [LATE, EARLY]
            && !InConfigOrder(event.views, JobsFor(event, labelsMatch, None, tables, handler))
  {
    BuildHandlerGetsBoth([EARLY, LATE], labelsMatch, tables, handler);
    SwappedIsOutOfOrder(EARLY, LATE);
  }

  lemma PickedPair(views: seq<Job>, indices: seq<int>, jobs: seq<Job>)
    requires PickedAt(views, indices, jobs) && |jobs| == 2
    ensures |indices| == 2 && 0 <= indices[0] < indices[1] < |views|
    ensures jobs[0] == views[indices[0]] && jobs[1] == views[indices[1]]
  {
  }

  lemma {:induction false} SwappedIsOutOfOrder(a: Job, b: Job)
    requires a != b
    ensures !InConfigOrder([a, b], [b, a])
  {
    if indices :| PickedAt([a, b], indices, [b, a]) {
      hide PickedAt;
      PickedPair([a, b], indices, [b, a]);
    }
  }

  lemma {:induction false} CopiesAreGiven(labelsMatch: Labels -> bool, tables: Tables, handler: Handler)
    requires handler in tables.direct(KojiBuild)
    ensures var event := CommentOn([EARLY, LATE, EARLY]);
            && GivenExplicitly(event, labelsMatch, None, tables, handler, 0)
            && GivenByTrigger(event, labelsMatch, None, tables, handler, 1)
  {
    var event := CommentOn([EARLY, LATE, EARLY]);
    assert EARLY in event.views && Concerns(event, labelsMatch, None, EARLY) by {
      assert event.views[0] == EARLY;
    }
    assert TableFor(event, labelsMatch, None, tables, handler) == tables.direct;
    hide TableFor, Concerns;
    assert !TriggerRule(event, labelsMatch)(EARLY) && TriggerRule(event, labelsMatch)(LATE);
    assert ExplicitRule(event)(EARLY);
  }

  /** With a copy of the first job at the end the same list is in order, though the positions are not. */
  lemma {:induction false} CopiesCanKeepTheOrder(labelsMatch: Labels -> bool, tables: Tables, handler: Handler)
    requires handler in tables.direct(KojiBuild)
    ensures var event := CommentOn([EARLY, LATE, EARLY]);
            && InConfigOrder(event.views, JobsFor(event, labelsMatch, None, tables, handler))
            && !TriggersFirst(event, labelsMatch, None, tables, handler)
  {
    hide JobsFor, GivenExplicitly, GivenByTrigger;
    var event := CommentOn([EARLY, LATE, EARLY]);
    BuildHandlerGetsBoth(event.views, labelsMatch, tables, handler);
    CopiesAreGiven(labelsMatch, tables, handler);
    assert PickedAt(event.views, [1, 2], [LATE, EARLY]);
  }
}
