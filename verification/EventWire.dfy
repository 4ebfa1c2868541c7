/**
How an event reaches a worker: `Event.get_dict` turns its attributes into a dictionary for Celery,
`EventData.from_event_dict` reads it, and `EventData.get_dict` sends it on to the next task.
Times are microseconds since the epoch; on the wire they are floats or whole seconds.
*/
module EventWire {
  import opened Listings
  import opened Options

  /** 2 to the power of 32 seconds: the year 2106, until when doubles tell microseconds apart. */
  const LIMIT := 4_294_967_296_000_000

  type Time = t: int | 0 <= t < LIMIT

  /** A target and its identifier. */
  type Pair = (string, Option<string>)

  datatype Value =
    | Null | Int(i: int) | Float(f: real) | Text(text: string) | At(time: Time)
    | PairSet(pairs: set<Pair>) | PairList(pairList: seq<Pair>) | NameSet(names: set<string>) | NameList(nameList: seq<string>)

  /** The keys that are named in the code, and all others. */
  datatype Key =
    | EventType | EventId | CreatedAt | ProjectUrl | TaskAcceptedTime | CancelCutoffTime
    | BuildTargetsOverride | TestsTargetsOverride | BranchesOverride
    | Actor | UserLogin | TagName | TagNames | GitRef | PrId | PrIdAttribute | CommitSha | CommitShaBefore | Identifier
    | IssueId | LazyDbProjectObject | LazyDbProjectEvent | LazyProject
    | LazyBaseProject | LazyPackageConfig | LazyPackageConfigSearched | Other(name: string)

  type Dict = map<Key, Value>

  /** bool(value) */
  predicate Truthy(v: Value) {
    match v
    case Null => false
    case Int(i) => i != 0
    case Float(f) => f != 0.0
    case Text(t) => t != ""
    case At(_) => true
    case PairSet(s) => s != {}
    case PairList(l) => l != []
    case NameSet(s) => s != {}
    case NameList(l) => l != []
  }

  /** d.get(key) */
  function Get(d: Dict, key: Key): Value {
    if key in d then d[key] else Null
  }

  /** a or b */
  function Either(a: Value, b: Value): Value {
    if Truthy(a) then a else b
  }

  // ---- Floats ----

  const SECOND := 1_000_000

  /**
   datetime.timestamp(): below the limit a double is off by less than 0.4 microseconds, and whole
   seconds are exact.
   */
  ghost predicate Accurate(stamp: Time -> real) {
    && (forall t: Time :: t as real - 0.4 < stamp(t) * 1_000_000.0 < t as real + 0.4)
    && (forall t: Time :: t % SECOND == 0 ==> stamp(t) == (t / SECOND) as real)
  }

  /** datetime.fromtimestamp() rounds to the nearest microsecond. */
  function FromTimestamp(f: real): int {
    (f * 1_000_000.0 + 0.5).Floor
  }

  /** int(f) truncates. */
  function Truncated(f: real): int {
    if f < 0.0 then -(-f).Floor else f.Floor
  }

  // ---- The dictionary of an event ----

  predicate Lazy(k: Key) {
    || k.LazyDbProjectObject? || k.LazyDbProjectEvent? || k.LazyProject?
    || k.LazyBaseProject? || k.LazyPackageConfig? || k.LazyPackageConfigSearched?
  }

  /** The entries that both kinds of `get_dict` convert. */
  predicate Converted(k: Key) {
    k.TaskAcceptedTime? || k.CancelCutoffTime? || Override(k)
  }

  predicate Override(k: Key) {
    k.BuildTargetsOverride? || k.TestsTargetsOverride? || k.BranchesOverride?
  }

  /** The entries that only the one of an event writes. */
  predicate Written(k: Key) {
    k.EventType? || k.EventId? || k.CreatedAt? || k.ProjectUrl?
  }

  /** What happens to a time that is sent as a float. */
  function Stamped(v: Value, stamp: Time -> real): Value {
    if v.At? then Float(stamp(v.time)) else Null
  }

  /** What happens to a time that is sent in whole seconds. */
  function InSeconds(v: Value, stamp: Time -> real): Value {
    if v.At? then Int(Truncated(stamp(v.time))) else Null
  }

  ghost predicate PairsSent(v: Value, sent: Value) {
    if v.PairSet? && v.pairs != {} then sent.PairList? && Lists(sent.pairList, v.pairs) else sent == v
  }

  ghost predicate NamesSent(v: Value, sent: Value) {
    if v.NameSet? && v.names != {} then sent.NameList? && Lists(sent.nameList, v.names) else sent == v
  }

  /** The attributes have the types that the classes declare. */
  predicate OverridesTyped(a: Dict) {
    && BuildTargetsOverride in a && (a[BuildTargetsOverride].PairSet? || a[BuildTargetsOverride].Null?)
    && TestsTargetsOverride in a && (a[TestsTargetsOverride].PairSet? || a[TestsTargetsOverride].Null?)
    && BranchesOverride in a && (a[BranchesOverride].NameSet? || a[BranchesOverride].Null?)
  }

  /** The orders in which list() finds the elements of the three sets. */
  datatype Orders = Orders(builds: seq<Pair>, tests: seq<Pair>, branches: seq<string>)

  ghost predicate OrdersOf(o: Orders, a: Dict)
    requires OverridesTyped(a)
  {
    && (a[BuildTargetsOverride].PairSet? ==> Lists(o.builds, a[BuildTargetsOverride].pairs))
    && (a[TestsTargetsOverride].PairSet? ==> Lists(o.tests, a[TestsTargetsOverride].pairs))
    && (a[BranchesOverride].NameSet? ==> Lists(o.branches, a[BranchesOverride].names))
  }

  /** The entries both kinds of get_dict write alike. */
  ghost predicate SentAlike(a: Dict, stamp: Time -> real, d: Dict) {
    && Get(d, TaskAcceptedTime) == InSeconds(Get(a, TaskAcceptedTime), stamp)
    && Get(d, CancelCutoffTime) == Stamped(Get(a, CancelCutoffTime), stamp)
    && PairsSent(Get(a, BuildTargetsOverride), Get(d, BuildTargetsOverride))
    && PairsSent(Get(a, TestsTargetsOverride), Get(d, TestsTargetsOverride))
    && NamesSent(Get(a, BranchesOverride), Get(d, BranchesOverride))
  }

  /** The lines for the two times. */
  method SendTimes(dict: Dict, stamp: Time -> real) returns (d: Dict)
    ensures Get(d, TaskAcceptedTime) == InSeconds(Get(dict, TaskAcceptedTime), stamp)
    ensures Get(d, CancelCutoffTime) == Stamped(Get(dict, CancelCutoffTime), stamp)
    ensures forall k: Key | !k.TaskAcceptedTime? && !k.CancelCutoffTime? :: Get(d, k) == Get(dict, k)
  {
    d := dict[TaskAcceptedTime := InSeconds(Get(dict, TaskAcceptedTime), stamp)];
    d := d[CancelCutoffTime := Stamped(Get(d, CancelCutoffTime), stamp)];
  }

  /** The two lines for each of the three overrides; an empty set stays what it is. */
  method SendOverrides(attributes: Dict, dict: Dict, orders: Orders) returns (d: Dict)
    requires OverridesTyped(attributes) && OrdersOf(orders, attributes)
    requires Get(dict, BuildTargetsOverride) == Get(attributes, BuildTargetsOverride)
    requires Get(dict, TestsTargetsOverride) == Get(attributes, TestsTargetsOverride)
    requires Get(dict, BranchesOverride) == Get(attributes, BranchesOverride)
    ensures PairsSent(Get(attributes, BuildTargetsOverride), Get(d, BuildTargetsOverride))
    ensures PairsSent(Get(attributes, TestsTargetsOverride), Get(d, TestsTargetsOverride))
    ensures NamesSent(Get(attributes, BranchesOverride), Get(d, BranchesOverride))
    ensures forall k | !Override(k) :: Get(d, k) == Get(dict, k)
  {
    d := dict;
    if Truthy(attributes[BuildTargetsOverride]) {
      d := d[BuildTargetsOverride := PairList(orders.builds)];
    }
    if Truthy(attributes[TestsTargetsOverride]) {
      d := d[TestsTargetsOverride := PairList(orders.tests)];
    }
    if Truthy(attributes[BranchesOverride]) {
      d := d[BranchesOverride := NameList(orders.branches)];
    }
  }

  /** The entries that are converted in the same way for events and for their data. */
  method SendConverted(attributes: Dict, dict: Dict, stamp: Time -> real, orders: Orders) returns (d: Dict)
    requires OverridesTyped(attributes) && OrdersOf(orders, attributes)
    requires forall k: Key | Converted(k) :: Get(dict, k) == Get(attributes, k)
    ensures SentAlike(attributes, stamp, d)
    ensures forall k | !Converted(k) :: Get(d, k) == Get(dict, k)
  {
    assert Get(dict, BuildTargetsOverride) == Get(attributes, BuildTargetsOverride);
    assert Get(dict, TestsTargetsOverride) == Get(attributes, TestsTargetsOverride);
    assert Get(dict, BranchesOverride) == Get(attributes, BranchesOverride);
    d := SendTimes(dict, stamp);
    d := SendOverrides(attributes, d, orders);
  }

  /** The copy without the lazy attributes, and the entries that only an event has. */
  method MakeSerializable(
    attributes: Dict, eventType: string, objectId: Value, objectUrl: Value, stamp: Time -> real)
    returns (d: Dict)
    requires CreatedAt in attributes && attributes[CreatedAt].At?
    ensures Get(d, EventType) == Text(eventType) && Get(d, EventId) == objectId
    ensures Get(d, ProjectUrl) == Either(Get(attributes, ProjectUrl), objectUrl)
    ensures Get(d, CreatedAt) == Int(Truncated(stamp(attributes[CreatedAt].time)))
    ensures forall k | !Written(k) :: Get(d, k) == if Lazy(k) then Null else Get(attributes, k)
  {
    d := map k | k in attributes && !Lazy(k) :: attributes[k];
    d := d[EventType := Text(eventType)];
    d := d[EventId := objectId];
    d := d[CreatedAt := Int(Truncated(stamp(d[CreatedAt].time)))];
    d := d[ProjectUrl := Either(Get(d, ProjectUrl), objectUrl)];
  }

  /** `objectUrl` is the URL of the project that the event's database object belongs to. */
  method GetEventDict(
    attributes: Dict, eventType: string, objectId: Value, objectUrl: Value, stamp: Time -> real, orders: Orders)
    returns (d: Dict)
    requires CreatedAt in attributes && attributes[CreatedAt].At?
    requires OverridesTyped(attributes) && OrdersOf(orders, attributes)
    ensures CopiedButLazy(attributes, d)
    ensures forall k | k in {Actor, UserLogin, TagName, TagNames, GitRef, PrId, PrIdAttribute, CommitSha, CommitShaBefore,
                             Identifier, IssueId} :: Get(d, k) == Get(attributes, k)
    ensures forall name :: Get(d, Other(name)) == Get(attributes, Other(name))
    ensures forall k | k in {LazyDbProjectObject, LazyDbProjectEvent, LazyProject, LazyBaseProject, LazyPackageConfig,
                             LazyPackageConfigSearched} :: Get(d, k) == Null
    ensures Accurate(stamp) ==> Get(d, CreatedAt) == Int(attributes[CreatedAt].time / SECOND)
    ensures match Get(attributes, ProjectUrl)
            case Text(url) => Get(d, ProjectUrl) == if url != "" then Text(url) else objectUrl
            case Null => Get(d, ProjectUrl) == objectUrl
            case _ => true
    ensures Get(d, EventType) == Text(eventType) && Get(d, EventId) == objectId
    ensures Get(d, ProjectUrl) == Either(Get(attributes, ProjectUrl), objectUrl)
    ensures Get(d, CreatedAt) == Int(Truncated(stamp(attributes[CreatedAt].time)))
    ensures SentAlike(attributes, stamp, d)
  {
    hide Truncated, Accurate, SentAlike, OrdersOf, PairsSent, NamesSent, Stamped, InSeconds;
    CreatedInSeconds(stamp, attributes[CreatedAt].time);
    var made := MakeSerializable(attributes, eventType, objectId, objectUrl, stamp);
    d := SendConverted(attributes, made, stamp, orders);
    CopiedOn(attributes, made, d);
    EventKeysAreCopied(attributes, d);
  }

  lemma CreatedInSeconds(stamp: Time -> real, t: Time)
    ensures Accurate(stamp) ==> Truncated(stamp(t)) == t / SECOND
  {
  }

  lemma CopiedOn(a: Dict, made: Dict, d: Dict)
    requires forall k | !Written(k) :: Get(made, k) == if Lazy(k) then Null else Get(a, k)
    requires forall k | !Converted(k) :: Get(d, k) == Get(made, k)
    ensures CopiedButLazy(a, d)
  {
    hide Get, Lazy;
  }

  lemma EventKeysAreCopied(a: Dict, d: Dict)
    requires CopiedButLazy(a, d)
    ensures forall k | k in {Actor, UserLogin, TagName, TagNames, GitRef, PrId, PrIdAttribute, CommitSha, CommitShaBefore,
                             Identifier, IssueId} :: Get(d, k) == Get(a, k)
    ensures forall name :: Get(d, Other(name)) == Get(a, Other(name))
    ensures forall k | k in {LazyDbProjectObject, LazyDbProjectEvent, LazyProject, LazyBaseProject, LazyPackageConfig,
                             LazyPackageConfigSearched} :: Get(d, k) == Null
  {
    hide Get;
  }

  lemma DataKeysAreCopied(a: Dict, d: Dict)
    requires forall k | !Converted(k) :: Get(d, k) == if Popped(k) then Null else Get(a, k)
    ensures forall k | k in {EventType, EventId, CreatedAt, ProjectUrl, Actor, UserLogin, TagName, TagNames, GitRef, PrId,
                             PrIdAttribute, CommitSha, CommitShaBefore, Identifier, IssueId} :: Get(d, k) == Get(a, k)
    ensures forall name :: Get(d, Other(name)) == Get(a, Other(name))
    ensures Get(d, LazyProject) == Get(d, LazyDbProjectObject) == Get(d, LazyDbProjectEvent) == Null
  {
    hide Get;
  }

  // ---- Reading it ----

  /** The attributes of an EventData; the last five are those that the constructor converts. */
  datatype EventData = EventData(
    eventType: Value, actor: Value, eventId: Value, projectUrl: Value, tagName: Value, tagNames: Value, gitRef: Value,
    prId: Value, commitSha: Value, commitShaBefore: Value, identifier: Value, issueId: Value,
    taskAcceptedTime: Option<int>, cancelCutoffTime: Option<int>,
    buildTargets: Option<set<Pair>>, testsTargets: Option<set<Pair>>, branches: Option<set<string>>)

  function SecondsRead(v: Value): Option<int> {
    if v.Int? && v.i != 0 then Some(v.i * SECOND) else None
  }

  function FloatRead(v: Value): Option<int> {
    if v.Float? && v.f != 0.0 then Some(FromTimestamp(v.f)) else None
  }

  /** The set comprehension, and the constructor's None for an empty set. */
  function PairsRead(v: Value): Option<set<Pair>> {
    var pairs := if v.PairList? then (set p | p in v.pairList) else if v.PairSet? then v.pairs else {};
    if pairs != {} then Some(pairs) else None
  }

  function NamesRead(v: Value): Option<set<string>> {
    var names := if v.NameList? then (set n | n in v.nameList) else if v.NameSet? then v.names else {};
    if names != {} then Some(names) else None
  }

  function FromEventDict(d: Dict): EventData {
    EventData(
      Get(d, EventType), Either(Get(d, UserLogin), Get(d, Actor)), Get(d, EventId), Get(d, ProjectUrl),
      Get(d, TagName), Get(d, TagNames), Get(d, GitRef),
      Either(Get(d, PrIdAttribute), Get(d, PrId)),
      Get(d, CommitSha), Get(d, CommitShaBefore), Get(d, Identifier), Get(d, IssueId),
      SecondsRead(Get(d, TaskAcceptedTime)), FloatRead(Get(d, CancelCutoffTime)),
      PairsRead(Get(d, BuildTargetsOverride)), PairsRead(Get(d, TestsTargetsOverride)),
      NamesRead(Get(d, BranchesOverride)))
  }

  // ---- Sending it on ----

  function TimeAttribute(t: Option<int>): Value {
    if t.Some? && 0 <= t.value < LIMIT then At(t.value) else Null
  }

  /** self.__dict__; the three lazy attributes and the dictionary that was read are of no account. */
  ghost predicate DataAttributes(x: EventData, a: Dict) {
    PlainAttributes(x, a) && ConvertedAttributes(x, a)
  }

  predicate PlainAttributes(x: EventData, a: Dict) {
    && Get(a, EventType) == x.eventType && Get(a, UserLogin) == Null && Get(a, Actor) == x.actor
    && Get(a, EventId) == x.eventId && Get(a, ProjectUrl) == x.projectUrl && Get(a, TagName) == x.tagName
    && Get(a, TagNames) == x.tagNames && Get(a, GitRef) == x.gitRef
    && Get(a, PrIdAttribute) == Null && Get(a, PrId) == x.prId
    && Get(a, CommitSha) == x.commitSha && Get(a, CommitShaBefore) == x.commitShaBefore
    && Get(a, Identifier) == x.identifier && Get(a, IssueId) == x.issueId
  }

  predicate ConvertedAttributes(x: EventData, a: Dict) {
    && Get(a, TaskAcceptedTime) == TimeAttribute(x.taskAcceptedTime)
    && Get(a, CancelCutoffTime) == TimeAttribute(x.cancelCutoffTime)
    && OverridesTyped(a)
    && a[BuildTargetsOverride] == (if x.buildTargets.Some? then PairSet(x.buildTargets.value) else Null)
    && a[TestsTargetsOverride] == (if x.testsTargets.Some? then PairSet(x.testsTargets.value) else Null)
    && a[BranchesOverride] == (if x.branches.Some? then NameSet(x.branches.value) else Null)
  }

  predicate Popped(k: Key) {
    k.LazyProject? || k.LazyDbProjectObject? || k.LazyDbProjectEvent?
  }

  method GetDataDict(attributes: Dict, stamp: Time -> real, orders: Orders) returns (d: Dict)
    requires OverridesTyped(attributes) && OrdersOf(orders, attributes)
    ensures forall k | !Converted(k) :: Get(d, k) == if Popped(k) then Null else Get(attributes, k)
    ensures SentAlike(attributes, stamp, d)
    ensures forall k | k in {EventType, EventId, CreatedAt, ProjectUrl, Actor, UserLogin, TagName, TagNames, GitRef, PrId,
                             PrIdAttribute, CommitSha, CommitShaBefore, Identifier, IssueId} :: Get(d, k) == Get(attributes, k)
    ensures forall name :: Get(d, Other(name)) == Get(attributes, Other(name))
    ensures Get(d, LazyProject) == Get(d, LazyDbProjectObject) == Get(d, LazyDbProjectEvent) == Null
  {
    d := SendConverted(attributes, attributes, stamp, orders);
    d := d - {LazyProject};
    d := d - {LazyDbProjectObject};
    d := d - {LazyDbProjectEvent};
    DataKeysAreCopied(attributes, d);
    hide SentAlike, OrdersOf;
  }

  // ---- The trip ----

  /** What an override set becomes: the same set, and None if it is empty. */
  function NonEmpty<T>(s: set<T>): Option<set<T>> {
    if s == {} then None else Some(s)
  }

  lemma PairsSurvive(v: Value, sent: Value)
    requires PairsSent(v, sent) && (v.PairSet? || v.Null?)
    ensures PairsRead(sent) == NonEmpty(if v.PairSet? then v.pairs else {})
  {
    if sent.PairList? {
      assert (set p | p in sent.pairList) == v.pairs;
    }
  }

  lemma NamesSurvive(v: Value, sent: Value)
    requires NamesSent(v, sent) && (v.NameSet? || v.Null?)
    ensures NamesRead(sent) == NonEmpty(if v.NameSet? then v.names else {})
  {
    if sent.NameList? {
      assert (set n | n in sent.nameList) == v.names;
    }
  }

  /** To the microsecond, unless it is the epoch. */
  lemma CutoffArrives(v: Value, stamp: Time -> real)
    requires Accurate(stamp) && (v.At? || v.Null?)
    ensures FloatRead(Stamped(v, stamp)) == if v.At? && v.time != 0 then Some(v.time) else None
  {
  }

  /** To the second, unless it is the first one. */
  lemma AcceptanceArrives(v: Value, stamp: Time -> real)
    requires Accurate(stamp) && (v.At? || v.Null?)
    ensures SecondsRead(InSeconds(v, stamp)) == if v.At? && v.time >= SECOND then Some(v.time - v.time % SECOND) else None
  {
  }

  /** What an event's `get_dict` does to the attributes that it neither writes nor converts. */
  ghost predicate CopiedButLazy(a: Dict, d: Dict) {
    forall k | !Written(k) && !Converted(k) :: Get(d, k) == if Lazy(k) then Null else Get(a, k)
  }

  /** The actor and the pull request arrive under their old or private names first. */
  lemma {:induction false} NamesTakePrecedence(a: Dict, d: Dict)
    requires CopiedButLazy(a, d)
    ensures var x := FromEventDict(d);
            && (Get(a, UserLogin).Null? || Get(a, UserLogin).Text? ==>
                  x.actor == if Get(a, UserLogin) == Null || Get(a, UserLogin) == Text("") then Get(a, Actor) else Get(a, UserLogin))
            && (Get(a, PrIdAttribute).Null? || Get(a, PrIdAttribute).Int? ==>
                  x.prId == if Get(a, PrIdAttribute) == Null || Get(a, PrIdAttribute) == Int(0) then Get(a, PrId) else Get(a, PrIdAttribute))
            && x.commitSha == Get(a, CommitSha) && x.commitShaBefore == Get(a, CommitShaBefore)
            && x.identifier == Get(a, Identifier) && x.issueId == Get(a, IssueId)
            && x.tagName == Get(a, TagName) && x.tagNames == Get(a, TagNames) && x.gitRef == Get(a, GitRef)
  {
    EventKeysAreCopied(a, d);
    hide CopiedButLazy, SecondsRead, FloatRead, PairsRead, NamesRead;
  }

  lemma TimesArrive(a: Dict, stamp: Time -> real, d: Dict)
    requires Accurate(stamp) && OverridesTyped(a) && SentAlike(a, stamp, d)
    requires Get(a, CancelCutoffTime).At? || Get(a, CancelCutoffTime).Null?
    requires Get(a, TaskAcceptedTime).At? || Get(a, TaskAcceptedTime).Null?
    ensures var x, cutoff, accepted := FromEventDict(d), Get(a, CancelCutoffTime), Get(a, TaskAcceptedTime);
            && x.cancelCutoffTime == (if cutoff.At? && cutoff.time != 0 then Some(cutoff.time) else None)
            && x.taskAcceptedTime ==
               (if accepted.At? && accepted.time >= SECOND then Some(accepted.time - accepted.time % SECOND) else None)
  {
    CutoffArrives(Get(a, CancelCutoffTime), stamp);
    AcceptanceArrives(Get(a, TaskAcceptedTime), stamp);
  }

  lemma OverridesArrive(a: Dict, stamp: Time -> real, d: Dict)
    requires OverridesTyped(a) && SentAlike(a, stamp, d)
    ensures var x := FromEventDict(d);
            && x.buildTargets == NonEmpty(if a[BuildTargetsOverride].PairSet? then a[BuildTargetsOverride].pairs else {})
            && x.testsTargets == NonEmpty(if a[TestsTargetsOverride].PairSet? then a[TestsTargetsOverride].pairs else {})
            && x.branches == NonEmpty(if a[BranchesOverride].NameSet? then a[BranchesOverride].names else {})
  {
    PairsSurvive(a[BuildTargetsOverride], Get(d, BuildTargetsOverride));
    PairsSurvive(a[TestsTargetsOverride], Get(d, TestsTargetsOverride));
    NamesSurvive(a[BranchesOverride], Get(d, BranchesOverride));
  }

  /**
   From an event to its reader: the cutoff arrives to the microsecond, unless it is the epoch; the
   acceptance time arrives as its second; the overrides arrive as the same sets, in any list order;
   and the attributes that are copied arrive, the actor and the pull request under their old names first.
   */
  lemma {:induction false} EventArrives(a: Dict, stamp: Time -> real, d: Dict)
    requires Accurate(stamp) && OverridesTyped(a) && SentAlike(a, stamp, d)
    requires Get(a, CancelCutoffTime).At? || Get(a, CancelCutoffTime).Null?
    requires Get(a, TaskAcceptedTime).At? || Get(a, TaskAcceptedTime).Null?
    ensures var x, cutoff, accepted := FromEventDict(d), Get(a, CancelCutoffTime), Get(a, TaskAcceptedTime);
            && x.cancelCutoffTime == (if cutoff.At? && cutoff.time != 0 then Some(cutoff.time) else None)
            && x.taskAcceptedTime ==
               (if accepted.At? && accepted.time >= SECOND then Some(accepted.time - accepted.time % SECOND) else None)
    ensures var x := FromEventDict(d);
            && x.buildTargets == NonEmpty(if a[BuildTargetsOverride].PairSet? then a[BuildTargetsOverride].pairs else {})
            && x.testsTargets == NonEmpty(if a[TestsTargetsOverride].PairSet? then a[TestsTargetsOverride].pairs else {})
            && x.branches == NonEmpty(if a[BranchesOverride].NameSet? then a[BranchesOverride].names else {})
    ensures CopiedButLazy(a, d) ==>
              var x := FromEventDict(d);
              && (Get(a, UserLogin).Null? || Get(a, UserLogin).Text? ==>
                    x.actor == if Get(a, UserLogin) == Null || Get(a, UserLogin) == Text("") then Get(a, Actor) else Get(a, UserLogin))
              && (Get(a, PrIdAttribute).Null? || Get(a, PrIdAttribute).Int? ==>
                    x.prId == if Get(a, PrIdAttribute) == Null || Get(a, PrIdAttribute) == Int(0) then Get(a, PrId) else Get(a, PrIdAttribute))
              && x.commitSha == Get(a, CommitSha) && x.commitShaBefore == Get(a, CommitShaBefore)
              && x.identifier == Get(a, Identifier) && x.issueId == Get(a, IssueId)
              && x.tagName == Get(a, TagName) && x.tagNames == Get(a, TagNames) && x.gitRef == Get(a, GitRef)
    ensures var x := FromEventDict(d);
            x.eventType == Get(d, EventType) && x.eventId == Get(d, EventId) && x.projectUrl == Get(d, ProjectUrl)
  {
    hide *;
    TimesArrive(a, stamp, d);
    OverridesArrive(a, stamp, d);
    if CopiedButLazy(a, d) {
      NamesTakePrecedence(a, d);
    }
    OwnEntriesArrive(d);
  }

  lemma OwnEntriesArrive(d: Dict)
    ensures var x := FromEventDict(d);
            x.eventType == Get(d, EventType) && x.eventId == Get(d, EventId) && x.projectUrl == Get(d, ProjectUrl)
  {
  }

  /** The values that reading and the constructor can give the converted attributes. */
  predicate Constructed(x: EventData) {
    && x.buildTargets != Some({}) && x.testsTargets != Some({}) && x.branches != Some({})
    && (x.taskAcceptedTime.Some? ==> 0 <= x.taskAcceptedTime.value < LIMIT)
    && (x.cancelCutoffTime.Some? ==> 0 <= x.cancelCutoffTime.value < LIMIT)
  }

  /** A whole second other than the epoch, and a cutoff other than the epoch. */
  predicate TimesTravel(x: EventData) {
    && (x.taskAcceptedTime.Some? ==> x.taskAcceptedTime.value % SECOND == 0 < x.taskAcceptedTime.value)
    && x.cancelCutoffTime != Some(0)
  }

  lemma {:induction false} ReadingMakesTimesThatTravel(a: Dict, stamp: Time -> real, d: Dict)
    requires Accurate(stamp) && OverridesTyped(a) && SentAlike(a, stamp, d)
    requires Get(a, CancelCutoffTime).At? || Get(a, CancelCutoffTime).Null?
    requires Get(a, TaskAcceptedTime).At? || Get(a, TaskAcceptedTime).Null?
    ensures Constructed(FromEventDict(d)) && TimesTravel(FromEventDict(d))
  {
  }

  /** Sending an EventData on changes nothing exactly when its times travel. */
  lemma {:induction false} SendingOnKeepsTheData(x: EventData, a: Dict, stamp: Time -> real, d: Dict)
    requires Accurate(stamp) && Constructed(x) && DataAttributes(x, a)
    requires SentAlike(a, stamp, d)
    requires forall k | !Converted(k) :: Get(d, k) == if Popped(k) then Null else Get(a, k)
    ensures FromEventDict(d) == x <==> TimesTravel(x)
  {
    PlainFieldsTravel(x, a, d);
    ConvertedFieldsTravel(x, a, stamp, d);
  }

  lemma PlainFieldsTravel(x: EventData, a: Dict, d: Dict)
    requires PlainAttributes(x, a)
    requires forall k | !Converted(k) :: Get(d, k) == if Popped(k) then Null else Get(a, k)
    ensures SamePlainFields(FromEventDict(d), x)
  {
    assert Get(d, EventType) == x.eventType && Get(d, EventId) == x.eventId && Get(d, ProjectUrl) == x.projectUrl;
    assert Get(d, UserLogin) == Null && Get(d, Actor) == x.actor;
    assert Get(d, PrIdAttribute) == Null && Get(d, PrId) == x.prId;
    assert Get(d, TagName) == x.tagName && Get(d, TagNames) == x.tagNames && Get(d, GitRef) == x.gitRef;
    assert Get(d, CommitSha) == x.commitSha && Get(d, CommitShaBefore) == x.commitShaBefore;
    assert Get(d, Identifier) == x.identifier && Get(d, IssueId) == x.issueId;
  }

  predicate SamePlainFields(x: EventData, y: EventData) {
    && x.eventType == y.eventType && x.actor == y.actor && x.eventId == y.eventId && x.projectUrl == y.projectUrl
    && x.tagName == y.tagName && x.tagNames == y.tagNames && x.gitRef == y.gitRef && x.prId == y.prId
    && x.commitSha == y.commitSha && x.commitShaBefore == y.commitShaBefore && x.identifier == y.identifier
    && x.issueId == y.issueId
  }

  lemma ConvertedFieldsTravel(x: EventData, a: Dict, stamp: Time -> real, d: Dict)
    requires Accurate(stamp) && Constructed(x) && ConvertedAttributes(x, a) && SentAlike(a, stamp, d)
    ensures var y := FromEventDict(d);
            && (y.taskAcceptedTime == x.taskAcceptedTime && y.cancelCutoffTime == x.cancelCutoffTime <==> TimesTravel(x))
            && y.buildTargets == x.buildTargets && y.testsTargets == x.testsTargets && y.branches == x.branches
  {
    CutoffArrives(Get(a, CancelCutoffTime), stamp);
    AcceptanceArrives(Get(a, TaskAcceptedTime), stamp);
    PairsSurvive(a[BuildTargetsOverride], Get(d, BuildTargetsOverride));
    PairsSurvive(a[TestsTargetsOverride], Get(d, TestsTargetsOverride));
    NamesSurvive(a[BranchesOverride], Get(d, BranchesOverride));
  }
}
