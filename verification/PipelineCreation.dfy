/**
The table of pipelines and the calls that create groups for its rows, run by any number of
workers at once.  A state holds what is committed (`rows`, `groups`), the row locks, and for
every worker where it stands in its call.  One `Step` is one statement that other workers can
observe: a committed read, a conditional update that takes the row lock, a commit.

Every kind of group has its `create` class method; they differ in four ways, written down in
`Guarded`, `Copied`, `CopiesSrpm` and `ClonesInOneTransaction`.
*/
module PipelineCreation {
  import opened Options

  type Id = nat

  /** What a call creates.  Every kind but Srpm names a link column of the pipeline. */
  datatype Kind =
    Copr | Koji | TagRequest | VmImage | TestRun | SyncRelease | Bodhi | LogDetective | Srpm

  /** A pipeline; a kind that is absent from `links` is a null column. */
  datatype Row = Row(event: Id, package: Option<string>, srpm: Option<Id>, links: map<Kind, Id>)

  /** The create methods that claim a pipeline by UPDATE ... WHERE link IS NULL. */
  predicate Guarded(kind: Kind) {
    kind == Copr || kind == TestRun
  }

  /** The links that a clone made for `kind` takes over from its source. */
  function Copied(kind: Kind): set<Kind> {
    match kind
    case TestRun => {Copr, Koji}
    case LogDetective => {Copr, Koji}
    case VmImage => {Copr}
    case _ => {}
  }

  predicate CopiesSrpm(kind: Kind) {
    kind != Bodhi
  }

  /** Only the test-run clone is inserted by the caller's own transaction. */
  predicate ClonesInOneTransaction(kind: Kind) {
    kind == TestRun
  }

  /** Python's `a or b` on optional strings: the empty string counts as missing. */
  function Or(a: Option<string>, b: Option<string>): Option<string> {
    if a.Some? && a.value != "" then a else b
  }

  /** The package of a clone: only the Copr call may override the one of its source. */
  function ClonePackage(kind: Kind, package: Option<string>, memory: Option<string>, source: Row): Option<string> {
    if kind == Copr then Or(package, Or(memory, source.package)) else source.package
  }

  function Restrict(links: map<Kind, Id>, kinds: set<Kind>): map<Kind, Id> {
    map k | k in links && k in kinds :: links[k]
  }

  /** The links written into a clone. */
  function CloneLinks(kind: Kind, source: Row, group: Id): map<Kind, Id> {
    Restrict(source.links, Copied(kind))[kind := group]
  }

  function CloneSrpm(kind: Kind, source: Row): Option<Id> {
    if CopiesSrpm(kind) then source.srpm else None
  }

  /** What PipelineModel.create commits: an event and a package, nothing linked yet. */
  function Blank(event: Id, package: Option<string>): Row {
    Row(event, package, None, map[])
  }

  /** One UPDATE that sets the given columns and leaves the others as they are. */
  function SetColumns(row: Row, srpm: Option<Id>, links: map<Kind, Id>): Row {
    row.(srpm := if srpm.Some? then srpm else row.srpm, links := row.links + links)
  }

  /** Where a worker stands in its call. */
  datatype Pc =
    | Reading                                                         // about to look at the link
    | Swapping                                                        // about to run the conditional update
    | Swapped                                                         // update done, not committed
    | Locking                                                         // about to SELECT ... FOR UPDATE
    | Cloning(source: Row)                                            // about to insert the clone
    | ReadingBack(clone: Id)                                          // clone committed without links
    | Filling(clone: Id, srpm: Option<Id>, links: map<Kind, Id>)      // about to write the links
    | Assigning                                                       // about to update unconditionally
    | Finished(result: Option<Id>)
    | Failed

  datatype Worker = Worker(
    kind: Kind, target: Id, rest: seq<Id>, package: Option<string>, memory: Option<string>, group: Id, pc: Pc)

  predicate Over(worker: Worker) {
    worker.pc.Finished? || worker.pc.Failed?
  }

  /** What a finished call has done, in the order of the commits that completed it. */
  datatype Op =
    | Call(kind: Kind, target: Id, package: Option<string>, memory: Option<string>, group: Id, drawn: Id)
    | Leftover(clone: Id, row: Row, kind: Kind, group: Id)

  datatype State = State(
    rows: map<Id, Row>, groups: set<(Kind, Id)>, locks: map<Id, Id>, workers: map<Id, Worker>,
    nextRow: Id, nextGroup: Id, log: seq<Op>)

  datatype Step =
    | Insert(event: Id, package: Option<string>)
    | BeginNewRun(worker: Id, kind: Kind, event: Id, package: Option<string>)
    | Begin(worker: Id, kind: Kind, targets: seq<Id>, package: Option<string>, memory: Option<string>)
    | Read(worker: Id, seen: bool)
    | Swap(worker: Id)
    | CommitSwap(worker: Id)
    | Lock(worker: Id)
    | Clone(worker: Id)
    | ReadBack(worker: Id)
    | Fill(worker: Id)
    | Assign(worker: Id)
    | Abort(worker: Id)

  /** The clone that a worker has published but not filled. */
  function Unfilled(worker: Worker): Option<Id> {
    match worker.pc
    case ReadingBack(clone) => Some(clone)
    case Filling(clone, _, _) => Some(clone)
    case _ => None
  }

  /** No worker still has to fill this row. */
  predicate Settled(s: State, id: Id) {
    forall w | w in s.workers :: Unfilled(s.workers[w]) != Some(id)
  }

  /** The statement can run now.  Waiting for a row lock means: not enabled. */
  predicate Enabled(s: State, step: Step) {
    match step
    case Insert(_, _) => true
    case BeginNewRun(w, kind, _, _) => w !in s.workers && (kind == Srpm || kind == SyncRelease)
    case Begin(w, kind, targets, _, _) => CanBegin(s, w, kind, targets)
    case Read(w, seen) => CanRead(s, w, seen)
    case Swap(w) => CanSwap(s, w)
    case CommitSwap(w) => CanCommitSwap(s, w)
    case Lock(w) => CanLock(s, w)
    case Clone(w) => w in s.workers && s.workers[w].pc.Cloning?
    case ReadBack(w) => CanReadBack(s, w)
    case Fill(w) => CanFill(s, w)
    case Assign(w) => CanAssign(s, w)
    case Abort(w) => w in s.workers && !Over(s.workers[w])
  }

  predicate CanBegin(s: State, w: Id, kind: Kind, targets: seq<Id>) {
    && w !in s.workers && kind != Srpm && kind != SyncRelease
    && (kind != LogDetective ==> |targets| == 1)
    && forall t | t in targets :: t < s.nextRow
  }

  predicate CanRead(s: State, w: Id, seen: bool) {
    && w in s.workers && s.workers[w].pc.Reading?
    && (seen ==> s.workers[w].target in s.rows && s.workers[w].kind in s.rows[s.workers[w].target].links)
  }

  predicate CanSwap(s: State, w: Id) {
    w in s.workers && s.workers[w].pc.Swapping? && Guarded(s.workers[w].kind) && s.workers[w].target !in s.locks
  }

  predicate CanCommitSwap(s: State, w: Id) {
    w in s.workers && s.workers[w].pc.Swapped? && Guarded(s.workers[w].kind) && s.workers[w].target in s.rows
  }

  predicate CanLock(s: State, w: Id) {
    w in s.workers && s.workers[w].pc.Locking? && s.workers[w].target !in s.locks
  }

  predicate CanReadBack(s: State, w: Id) {
    w in s.workers && s.workers[w].pc.ReadingBack? && s.workers[w].target in s.rows
  }

  predicate CanFill(s: State, w: Id) {
    && w in s.workers && s.workers[w].pc.Filling?
    && s.workers[w].pc.clone in s.rows && s.workers[w].pc.clone !in s.locks
  }

  predicate CanAssign(s: State, w: Id) {
    && w in s.workers && s.workers[w].pc.Assigning?
    && s.workers[w].target in s.rows && s.workers[w].target !in s.locks
  }

  function Unlocked(locks: map<Id, Id>, w: Id): map<Id, Id> {
    map id | id in locks && locks[id] != w :: locks[id]
  }

  /** The call is over, or, for a Log Detective group, goes on with its next pipeline. */
  function Advance(worker: Worker, result: Id): Worker {
    if worker.rest == [] then worker.(pc := Finished(Some(result)))
    else worker.(target := worker.rest[0], rest := worker.rest[1..], pc := Reading)
  }

  function At(s: State, w: Id, pc: Pc): State
    requires w in s.workers
  {
    s.(workers := s.workers[w := s.workers[w].(pc := pc)])
  }

  function CallOf(worker: Worker, drawn: Id): Op {
    Call(worker.kind, worker.target, worker.package, worker.memory, worker.group, drawn)
  }

  function Apply(s: State, step: Step): State
    requires Enabled(s, step)
  {
    match step
    case Insert(event, package) =>
      s.(rows := s.rows[s.nextRow := Blank(event, package)], nextRow := s.nextRow + 1)
    case BeginNewRun(w, kind, event, package) => ApplyBeginNewRun(s, w, kind, event, package)
    case Begin(w, kind, targets, package, memory) => ApplyBegin(s, w, kind, targets, package, memory)
    case Read(w, seen) => ApplyRead(s, w, seen)
    case Swap(w) => ApplySwap(s, w)
    case CommitSwap(w) => ApplyCommitSwap(s, w)
    case Lock(w) => ApplyLock(s, w)
    case Clone(w) => ApplyClone(s, w)
    case ReadBack(w) => ApplyReadBack(s, w)
    case Fill(w) => ApplyFill(s, w)
    case Assign(w) => ApplyAssign(s, w)
    case Abort(w) => ApplyAbort(s, w)
  }

  /** create_with_new_run: the pipeline is committed first, the new record is linked afterwards. */
  function ApplyBeginNewRun(s: State, w: Id, kind: Kind, event: Id, package: Option<string>): State {
    var pc := if kind == Srpm then Filling(s.nextRow, Some(s.nextGroup), map[])
              else Filling(s.nextRow, None, map[kind := s.nextGroup]);
    s.(rows := s.rows[s.nextRow := Blank(event, package)],
       groups := s.groups + {(kind, s.nextGroup)},
       workers := s.workers[w := Worker(kind, s.nextRow, [], package, None, s.nextGroup, pc)],
       nextRow := s.nextRow + 1, nextGroup := s.nextGroup + 1)
  }

  /** The new group is flushed, which draws its id; nobody else sees it before a commit. */
  function ApplyBegin(s: State, w: Id, kind: Kind, targets: seq<Id>, package: Option<string>, memory: Option<string>): State {
    var target, rest := if targets == [] then 0 else targets[0], if targets == [] then [] else targets[1..];
    var pc := if targets == [] then Finished(None) else if kind == TestRun then Swapping else Reading;
    s.(workers := s.workers[w := Worker(kind, target, rest, package, memory, s.nextGroup, pc)],
       groups := if targets == [] then s.groups + {(kind, s.nextGroup)} else s.groups,
       nextGroup := s.nextGroup + 1)
  }

  /** A session may serve an old null, so `seen` may be false for a link that is set by now. */
  function ApplyRead(s: State, w: Id, seen: bool): State
    requires CanRead(s, w, seen)
  {
    var worker := s.workers[w];
    At(s, w, if seen then Cloning(s.rows[worker.target]) else if Guarded(worker.kind) then Swapping else Assigning)
  }

  /** UPDATE ... WHERE id = target AND link IS NULL: takes the row lock when it matches. */
  function ApplySwap(s: State, w: Id): State
    requires CanSwap(s, w)
  {
    var worker := s.workers[w];
    if worker.target in s.rows && worker.kind !in s.rows[worker.target].links then
      At(s, w, Swapped).(locks := s.locks[worker.target := w])
    else
      At(s, w, Locking)
  }

  function ApplyCommitSwap(s: State, w: Id): State
    requires CanCommitSwap(s, w)
  {
    var worker := s.workers[w];
    var row := s.rows[worker.target];
    At(s, w, Finished(Some(worker.target))).(
    rows := s.rows[worker.target := row.(links := row.links[worker.kind := worker.group])],
    groups := s.groups + {(worker.kind, worker.group)},
    locks := Unlocked(s.locks, w),
    log := s.log + [CallOf(worker, s.nextRow)])
  }

  /** SELECT ... FOR UPDATE; a missing pipeline ends the call with its group alone. */
  function ApplyLock(s: State, w: Id): State
    requires CanLock(s, w)
  {
    var worker := s.workers[w];
    if worker.target in s.rows then
      At(s, w, Cloning(s.rows[worker.target])).(locks := s.locks[worker.target := w])
    else
      At(s, w, Finished(None)).(
      groups := s.groups + {(worker.kind, worker.group)},
      log := s.log + [CallOf(worker, s.nextRow)])
  }

  /** Inserting the clone commits the transaction so far and with it releases the row lock. */
  function ApplyClone(s: State, w: Id): State
    requires w in s.workers && s.workers[w].pc.Cloning?
  {
    var worker := s.workers[w];
    var source := worker.pc.source;
    var blank := Blank(source.event, ClonePackage(worker.kind, worker.package, worker.memory, source));
    var s' := s.(groups := s.groups + {(worker.kind, worker.group)},
                 locks := Unlocked(s.locks, w), nextRow := s.nextRow + 1);
    if ClonesInOneTransaction(worker.kind) then
      At(s', w, Finished(Some(s.nextRow))).(
      rows := s.rows[s.nextRow :=
      SetColumns(blank, CloneSrpm(worker.kind, source), CloneLinks(worker.kind, source, worker.group))],
      log := s.log + [CallOf(worker, s.nextRow)])
    else
      At(s', w, ReadingBack(s.nextRow)).(rows := s.rows[s.nextRow := blank])
  }

  /** The nested commit expired the source, so its columns are read again. */
  function ApplyReadBack(s: State, w: Id): State
    requires CanReadBack(s, w)
  {
    var worker := s.workers[w];
    var source := s.rows[worker.target];
    At(s, w, Filling(worker.pc.clone, CloneSrpm(worker.kind, source), CloneLinks(worker.kind, source, worker.group)))
  }

  function ApplyFill(s: State, w: Id): State
    requires CanFill(s, w)
  {
    var worker := s.workers[w];
    var pc := worker.pc;
    s.(rows := s.rows[pc.clone := SetColumns(s.rows[pc.clone], pc.srpm, pc.links)],
       workers := s.workers[w := Advance(worker, pc.clone)],
       log := s.log + [CallOf(worker, pc.clone)])
  }

  /**
  The unguarded creators write the link whatever it holds by now.  A Log Detective call commits
  several pipelines together; here it commits one after the other, which includes that: reads may
  be stale, so it can do all its reads and writes right before the commit.
  */
  function ApplyAssign(s: State, w: Id): State
    requires CanAssign(s, w)
  {
    var worker := s.workers[w];
    var row := s.rows[worker.target];
    s.(rows := s.rows[worker.target := row.(links := row.links[worker.kind := worker.group])],
       groups := s.groups + {(worker.kind, worker.group)},
       workers := s.workers[w := Advance(worker, worker.target)])
  }

  /** An exception rolls back; a clone that the nested commit published stays behind. */
  function ApplyAbort(s: State, w: Id): State
    requires w in s.workers && !Over(s.workers[w])
  {
    var worker := s.workers[w];
    var clone := Unfilled(worker);
    At(s, w, Failed).(
    locks := Unlocked(s.locks, w),
    log := if clone.Some? && clone.value in s.rows
           then s.log + [Leftover(clone.value, s.rows[clone.value], worker.kind, worker.group)] else s.log)
  }

  /** The steps are enabled one after another. */
  predicate Runs(s: State, steps: seq<Step>)
    decreases |steps|
  {
    steps == [] || (Enabled(s, steps[0]) && Runs(Apply(s, steps[0]), steps[1..]))
  }

  function Execute(s: State, steps: seq<Step>): State
    requires Runs(s, steps)
    decreases |steps|
  {
    if steps == [] then s else Execute(Apply(s, steps[0]), steps[1..])
  }

  /** The groups whose members read their event, package and SRPM off any one of their pipelines. */
  predicate Shared(kind: Kind) {
    kind == Copr || kind == Koji || kind == TestRun
  }

  /** Those of them that the clones of other creators take over. */
  const BUILDS: set<Kind> := {Copr, Koji}

  const SHARED: set<Kind> := {Copr, Koji, TestRun}

  /** No call of these kinds is started on a clone that another worker still has to fill. */
  predicate StartsSettled(s: State, step: Step, kinds: set<Kind>) {
    step.Begin? && step.kind in kinds ==> forall t | t in step.targets :: Settled(s, t)
  }

  predicate Disciplined(s: State, steps: seq<Step>, kinds: set<Kind>)
    requires Runs(s, steps)
    decreases |steps|
  {
    steps == [] || (StartsSettled(s, steps[0], kinds) && Disciplined(Apply(s, steps[0]), steps[1..], kinds))
  }

  /** A database nobody works on: every row and every linked group has a drawn id. */
  ghost predicate Quiet(s: State) {
    && s.workers == map[] && s.locks == map[] && s.log == []
    && (forall id | id in s.rows :: id < s.nextRow)
    && (forall id, k | id in s.rows && k in s.rows[id].links :: s.rows[id].links[k] < s.nextGroup)
  }
}
