/**
When only the guarded creators run, Copr and Testing Farm, the outcome of every interleaving is
that of the same calls executed one after another, in an order that respects which call was over
before another one began.
*/
module CreateLinearizability {
  import opened Options
  import opened PipelineCreation
  import opened CreationInvariants
  import opened GuardedLinks

  // ---- What the guarded creators rely on when they alone run ----

  const GUARDED: set<Kind> := {Copr, TestRun}

  /** Only the guarded creators run. */
  predicate GuardedOnly(step: Step) {
    && (step.Begin? ==> Guarded(step.kind))
    && !step.Insert? && !step.BeginNewRun? && !step.Assign?
  }

  ghost predicate AllGuarded(s: State) {
    forall w | w in s.workers :: Guarded(s.workers[w].kind)
  }

  /** What the calls rely on while they work, and what they promise when they return. */
  predicate Guards(rows: map<Id, Row>, locks: map<Id, Id>, w: Id, worker: Worker) {
    match worker.pc
    case Locking => worker.target in rows ==> worker.kind in rows[worker.target].links
    case Swapped =>
      && worker.target in locks && locks[worker.target] == w
      && worker.target in rows && worker.kind !in rows[worker.target].links
    case Cloning(source) =>
      && worker.target in rows && worker.kind in rows[worker.target].links
      && source.event == rows[worker.target].event && source.package == rows[worker.target].package
      && (worker.kind == TestRun ==>
            worker.target in locks && locks[worker.target] == w && source == rows[worker.target])
    case ReadingBack(clone) => ClonesFrom(rows, worker, clone)
    case Filling(clone, srpm, links) =>
      && ClonesFrom(rows, worker, clone)
      && srpm == rows[worker.target].srpm && links == map[Copr := worker.group]
    case Finished(result) => result.Some? ==> LinkOf(rows, result.value, worker.kind) == Some(worker.group)
    case _ => true
  }

  /** A published Copr clone: nothing but the event and the package chosen for it. */
  predicate ClonesFrom(rows: map<Id, Row>, worker: Worker, clone: Id) {
    && worker.kind == Copr && worker.target in rows && Copr in rows[worker.target].links && clone in rows
    && rows[clone] == Blank(rows[worker.target].event,
                            ClonePackage(Copr, worker.package, worker.memory, rows[worker.target]))
  }

  ghost predicate EachGuards(s: State) {
    forall w | w in s.workers :: Guards(s.rows, s.locks, w, s.workers[w])
  }

  ghost predicate AllGuard(s: State) {
    EachGuards(s) && Clear(s.workers, GUARDED)
  }

  lemma WorkerIsGuarded(s: State, w: Id)
    requires AllGuard(s) && w in s.workers
    ensures Guards(s.rows, s.locks, w, s.workers[w])
  {
  }

  lemma WorkersAreClear(s: State, v: Id, w: Id)
    requires AllGuard(s) && v in s.workers && w in s.workers
    ensures ClearOf(s.workers[v], s.workers[w], GUARDED)
  {
  }

  lemma KindIsGuarded(s: State, w: Id)
    requires AllGuarded(s) && w in s.workers
    ensures Guarded(s.workers[w].kind) && s.workers[w].kind in GUARDED
  {
  }

  lemma CoprCloneLinks(row: Row, group: Id)
    ensures CloneLinks(Copr, row, group) == map[Copr := group]
  {
    assert Restrict(row.links, Copied(Copr)) == map[];
  }

  /** A statement of a guarded call changes a row by committing its link, or by filling its own clone. */
  lemma {:induction false} StepChangesRow(s: State, step: Step, id: Id)
    requires Regular(s) && Enabled(s, step) && GuardedOnly(step) && id in s.rows
    ensures id in Apply(s, step).rows
    ensures
      || Apply(s, step).rows[id] == s.rows[id]
      || (&& step.CommitSwap? && s.workers[step.worker].target == id
          && var worker := s.workers[step.worker];
             Apply(s, step).rows[id] == s.rows[id].(links := s.rows[id].links[worker.kind := worker.group]))
      || (step.Fill? && Unfilled(s.workers[step.worker]) == Some(id))
  {
    hide Regular, ClonePackage, CloneLinks, CloneSrpm, CopiesSrpm, Unlocked;
    RowsAreDrawn(s);
  }

  /** A step of another worker takes nothing from what worker `v` relies on. */
  predicate Respects(s: State, s': State, v: Id, other: Worker) {
    && (!Over(other) ==>
          && (other.target in s.rows <==> other.target in s'.rows)
          && (other.target in s.rows ==> OnlyLinksMore(s.rows[other.target], s'.rows[other.target]))
          && (other.target in s.locks && s.locks[other.target] == v ==>
                && other.target in s'.locks && s'.locks[other.target] == v
                && (other.target in s.rows ==> s'.rows[other.target] == s.rows[other.target])))
    && (Unfilled(other).Some? && Unfilled(other).value in s.rows ==>
          Unfilled(other).value in s'.rows && s'.rows[Unfilled(other).value] == s.rows[Unfilled(other).value])
    && (other.pc.Finished? && other.pc.result.Some? && LinkOf(s.rows, other.pc.result.value, other.kind) == Some(other.group) ==>
          LinkOf(s'.rows, other.pc.result.value, other.kind) == Some(other.group))
  }

  predicate OnlyLinksMore(row: Row, row': Row) {
    row'.(links := row.links) == row && row.links.Keys <= row'.links.Keys
  }

  lemma {:induction false} OtherStaysGuarded(s: State, s': State, v: Id, other: Worker)
    requires Guards(s.rows, s.locks, v, other) && Respects(s, s', v, other) && Guarded(other.kind)
    ensures Guards(s'.rows, s'.locks, v, other)
  {
  }

  lemma {:induction false} TargetIsRespected(s: State, step: Step, v: Id)
    requires Regular(s) && AllGuarded(s) && AllGuard(s) && Enabled(s, step) && GuardedOnly(step)
    requires v in s.workers && v != step.worker && !Over(s.workers[v])
    ensures var s', other := Apply(s, step), s.workers[v];
            && (other.target in s.rows <==> other.target in s'.rows)
            && (other.target in s.rows ==> OnlyLinksMore(s.rows[other.target], s'.rows[other.target]))
            && (other.target in s.locks && s.locks[other.target] == v ==>
                  && other.target in s'.locks && s'.locks[other.target] == v
                  && (other.target in s.rows ==> s'.rows[other.target] == s.rows[other.target]))
  {
    hide Regular, AllGuarded, AllGuard, Apply, Placed, Grounded, Drawn;
    var other := s.workers[v];
    KindIsGuarded(s, v);
    TargetIsDrawn(s, v);
    if other.target in s.rows {
      StepChangesRow(s, step, other.target);
      if step.worker in s.workers {
        WorkersAreClear(s, step.worker, v);
        WorkerIsGuarded(s, step.worker);
      }
    } else if other.target in Apply(s, step).rows {
      NewRowIsTheNext(s, step, other.target);
    }
    if other.target in s.locks && s.locks[other.target] == v {
      LocksOfOthersStay(s, step, other.target);
    }
  }

  lemma TargetIsDrawn(s: State, v: Id)
    requires Regular(s) && v in s.workers && !Over(s.workers[v]) && Guarded(s.workers[v].kind)
    ensures s.workers[v].target in Targets(s.workers[v]) && s.workers[v].target < s.nextRow
  {
    hide Regular;
    WorkerIsRegular(s, v);
  }

  lemma {:induction false} CloneIsRespected(s: State, step: Step, v: Id)
    requires Regular(s) && AllGuarded(s) && AllGuard(s) && Enabled(s, step) && GuardedOnly(step)
    requires v in s.workers && v != step.worker && Unfilled(s.workers[v]).Some? && Unfilled(s.workers[v]).value in s.rows
    ensures var clone := Unfilled(s.workers[v]).value;
            clone in Apply(s, step).rows && Apply(s, step).rows[clone] == s.rows[clone]
  {
    hide Regular, AllGuarded, AllGuard, Apply, Guards;
    StepChangesRow(s, step, Unfilled(s.workers[v]).value);
    if step.worker in s.workers {
      KindIsGuarded(s, step.worker);
      WorkersAreClear(s, v, step.worker);
      RegularlyApart(s, v, step.worker);
      if !Over(s.workers[step.worker]) {
        TargetIsDrawn(s, step.worker);
      }
    }
  }

  lemma {:induction false} ResultIsRespected(s: State, step: Step, v: Id)
    requires Regular(s) && AllGuard(s) && Enabled(s, step) && GuardedOnly(step)
    requires v in s.workers && s.workers[v].pc.Finished? && s.workers[v].pc.result.Some?
    requires LinkOf(s.rows, s.workers[v].pc.result.value, s.workers[v].kind) == Some(s.workers[v].group)
    ensures LinkOf(Apply(s, step).rows, s.workers[v].pc.result.value, s.workers[v].kind) == Some(s.workers[v].group)
  {
    hide Regular, AllGuard, Apply;
    StepChangesRow(s, step, s.workers[v].pc.result.value);
    if step.worker in s.workers {
      WorkerIsGuarded(s, step.worker);
    }
  }

  lemma {:induction false} StepRespects(s: State, step: Step, v: Id)
    requires Regular(s) && AllGuarded(s) && AllGuard(s) && Enabled(s, step) && GuardedOnly(step)
    requires v in s.workers && v != step.worker
    ensures Respects(s, Apply(s, step), v, s.workers[v])
  {
    hide Regular, AllGuarded, AllGuard, Apply, Enabled, GuardedOnly, OnlyLinksMore, LinkOf;
    var other := s.workers[v];
    if !Over(other) {
      TargetIsRespected(s, step, v);
    }
    if Unfilled(other).Some? && Unfilled(other).value in s.rows {
      CloneIsRespected(s, step, v);
    }
    if other.pc.Finished? && other.pc.result.Some? && LinkOf(s.rows, other.pc.result.value, other.kind) == Some(other.group) {
      ResultIsRespected(s, step, v);
    }
  }

  /** Statements that read, take a lock or publish. */
  lemma {:induction false} WorkingIsGuarded(s: State, step: Step)
    requires Regular(s) && AllGuarded(s) && AllGuard(s) && Enabled(s, step) && GuardedOnly(step)
    requires !step.Clone? && !step.Fill? && !step.CommitSwap?
    ensures var s' := Apply(s, step); Guards(s'.rows, s'.locks, step.worker, s'.workers[step.worker])
  {
    hide Regular, AllGuarded, AllGuard, Unlocked, CloneLinks, Restrict;
    if step.worker in s.workers {
      KindIsGuarded(s, step.worker);
      WorkerIsRegular(s, step.worker);
      WorkerIsGuarded(s, step.worker);
      if step.ReadBack? {
        CoprCloneLinks(s.rows[s.workers[step.worker].target], s.workers[step.worker].group);
      }
    }
  }

  /** The statement that inserts a clone. */
  lemma {:induction false} CloningIsGuarded(s: State, w: Id)
    requires Regular(s) && AllGuarded(s) && AllGuard(s) && w in s.workers && s.workers[w].pc.Cloning?
    ensures var s' := ApplyClone(s, w); Guards(s'.rows, s'.locks, w, s'.workers[w])
  {
    hide Regular, AllGuarded, AllGuard, Unlocked, CloneSrpm, Or, Placed;
    KindIsGuarded(s, w);
    WorkerIsRegular(s, w);
    WorkerIsGuarded(s, w);
    RowsAreDrawn(s);
  }

  /** Statements that end a call on the row that they link. */
  lemma {:induction false} LinkingIsGuarded(s: State, step: Step)
    requires Regular(s) && AllGuarded(s) && AllGuard(s) && Enabled(s, step) && (step.Fill? || step.CommitSwap?)
    ensures var s' := Apply(s, step); Guards(s'.rows, s'.locks, step.worker, s'.workers[step.worker])
  {
    hide Regular, AllGuarded, AllGuard, Unlocked, ClonePackage;
    KindIsGuarded(s, step.worker);
    WorkerIsRegular(s, step.worker);
    WorkerIsGuarded(s, step.worker);
  }

  lemma {:induction false} StepKeepsGuards(s: State, step: Step)
    requires Regular(s) && AllGuarded(s) && AllGuard(s)
    requires Enabled(s, step) && GuardedOnly(step) && StartsSettled(s, step, GUARDED)
    ensures AllGuard(Apply(s, step)) && AllGuarded(Apply(s, step))
  {
    hide Regular, Guards, Apply, Enabled, StartsSettled;
    var s' := Apply(s, step);
    StepMovesOne(s, step);
    StepKeepsClear(s, GUARDED, step);
    forall v | v in s'.workers ensures Guards(s'.rows, s'.locks, v, s'.workers[v]) && Guarded(s'.workers[v].kind) {
      if v != step.worker {
        StepRespects(s, step, v);
        OtherStaysGuarded(s, s', v, s.workers[v]);
      } else {
        MoverIsGuarded(s, step);
      }
    }
  }

  lemma ClonedIsGuarded(s: State, step: Step)
    requires Regular(s) && AllGuarded(s) && AllGuard(s) && Enabled(s, step) && step.Clone?
    ensures var s' := Apply(s, step); Guards(s'.rows, s'.locks, step.worker, s'.workers[step.worker])
  {
    hide Regular, AllGuarded, AllGuard, Guards, ApplyClone;
    CloningIsGuarded(s, step.worker);
  }

  lemma {:induction false} MoverIsGuarded(s: State, step: Step)
    requires Regular(s) && AllGuarded(s) && AllGuard(s) && Enabled(s, step) && GuardedOnly(step)
    ensures var s' := Apply(s, step);
            Guards(s'.rows, s'.locks, step.worker, s'.workers[step.worker]) && Guarded(s'.workers[step.worker].kind)
  {
    hide Regular, AllGuard, Guards, Apply;
    if step.Clone? {
      ClonedIsGuarded(s, step);
    } else if step.Fill? || step.CommitSwap? {
      LinkingIsGuarded(s, step);
    } else {
      WorkingIsGuarded(s, step);
    }
    if step.worker in s.workers {
      StepMovesOne(s, step);
      KindIsGuarded(s, step.worker);
    } else {
      NewcomersBegin(s, step);
      Newcomer(s, step);
    }
  }

  // ---- The calls one after another ----

  datatype Db = Db(rows: map<Id, Row>, groups: set<(Kind, Id)>)

  /** A whole call of a guarded creator with nobody in between; `drawn` is the id its clone would get. */
  function CallAlone(db: Db, op: Op): (Db, Option<Id>)
    requires op.Call?
  {
    var groups := db.groups + {(op.kind, op.group)};
    if op.target !in db.rows then (Db(db.rows, groups), None)
    else
      var row := db.rows[op.target];
      if op.kind !in row.links then
        (Db(db.rows[op.target := row.(links := row.links[op.kind := op.group])], groups), Some(op.target))
      else
        var clone := Row(row.event, ClonePackage(op.kind, op.package, op.memory, row),
                         CloneSrpm(op.kind, row), CloneLinks(op.kind, row, op.group));
        (Db(db.rows[op.drawn := clone], groups), Some(op.drawn))
  }

  /** A failed Copr call that had published its clone leaves it, and its group, behind. */
  function OpAlone(db: Db, op: Op): Db {
    match op
    case Call(_, _, _, _, _, _) => CallAlone(db, op).0
    case Leftover(clone, row, kind, group) => Db(db.rows[clone := row], db.groups + {(kind, group)})
  }

  function Replay(db: Db, log: seq<Op>): Db {
    if log == [] then db else OpAlone(Replay(db, log[..|log| - 1]), log[|log| - 1])
  }

  /** Some worker has published this group with a clone it has yet to fill. */
  ghost predicate Announced(workers: map<Id, Worker>, group: (Kind, Id)) {
    exists w :: w in workers && Unfilled(workers[w]).Some? && group == (workers[w].kind, workers[w].group)
  }

  ghost predicate BeingFilled(workers: map<Id, Worker>, id: Id) {
    exists w :: w in workers && Unfilled(workers[w]) == Some(id)
  }

  ghost predicate RowTables(rows: map<Id, Row>, workers: map<Id, Worker>, db: map<Id, Row>) {
    && (forall id | id in db :: id in rows && rows[id] == db[id] && !BeingFilled(workers, id))
    && (forall id | id in rows :: id in db || BeingFilled(workers, id))
  }

  ghost predicate GroupTables(groups: set<(Kind, Id)>, workers: map<Id, Worker>, db: set<(Kind, Id)>) {
    && db <= groups
    && (forall g | g in groups :: g in db || Announced(workers, g))
    && (forall w | w in workers && Unfilled(workers[w]).Some? :: (workers[w].kind, workers[w].group) in groups)
  }

  /** The tables are those of the log, plus what half-done clones have made visible. */
  ghost predicate Tables(s: State, db: Db) {
    RowTables(s.rows, s.workers, db.rows) && GroupTables(s.groups, s.workers, db.groups)
  }

  /** Entry `i` is the call of this worker, and running it there alone gives the same result. */
  predicate LoggedAt(base: Db, log: seq<Op>, worker: Worker, i: int) {
    && 0 <= i < |log| && log[i].Call? && log[i] == CallOf(worker, log[i].drawn)
    && worker.pc.Finished? && CallAlone(Replay(base, log[..i]), log[i]).1 == worker.pc.result
  }

  ghost predicate Logged(base: Db, log: seq<Op>, worker: Worker) {
    exists i :: LoggedAt(base, log, worker, i)
  }

  ghost predicate LogOfFinished(base: Db, log: seq<Op>, workers: map<Id, Worker>) {
    && FinishedAreLogged(base, log, workers)
    && (forall i | 0 <= i < |log| && log[i].Call? :: CalledBySome(base, log, workers, i))
    && CallsDiffer(log)
  }

  ghost predicate FinishedAreLogged(base: Db, log: seq<Op>, workers: map<Id, Worker>) {
    forall w | w in workers && workers[w].pc.Finished? :: Logged(base, log, workers[w])
  }

  ghost predicate CalledBySome(base: Db, log: seq<Op>, workers: map<Id, Worker>, i: int) {
    exists w :: w in workers && LoggedAt(base, log, workers[w], i)
  }

  ghost predicate CallsDiffer(log: seq<Op>) {
    forall i, j | 0 <= i < j < |log| && log[i].Call? && log[j].Call? :: log[i].group != log[j].group
  }

  lemma {:induction false} LoggedStays(base: Db, log: seq<Op>, op: Op, worker: Worker, i: int)
    requires LoggedAt(base, log, worker, i)
    ensures LoggedAt(base, log + [op], worker, i)
  {
    assert (log + [op])[..i] == log[..i];
  }

  lemma LoggedByGroup(base: Db, log: seq<Op>, worker: Worker, i: int)
    requires LoggedAt(base, log, worker, i)
    ensures 0 <= i < |log| && log[i].Call? && log[i].group == worker.group
  {
  }

  lemma CalledByOne(base: Db, log: seq<Op>, workers: map<Id, Worker>, w: Id, i: int)
    requires w in workers && LoggedAt(base, log, workers[w], i)
    ensures CalledBySome(base, log, workers, i)
  {
  }

  lemma {:induction false} EarlierCallStays(base: Db, s: State, s': State, w: Id, op: Op, i: int)
    requires PairwiseApart(s.workers) && LogOfFinished(base, s.log, s.workers) && w in s.workers && OnlyMoves(s.workers, s'.workers, w)
    requires !Over(s.workers[w]) && s'.log == s.log + [op]
    requires 0 <= i < |s.log| && s.log[i].Call?
    ensures CalledBySome(base, s'.log, s'.workers, i)
    ensures s.log[i].group != s.workers[w].group
  {
    hide FinishedAreLogged, CallsDiffer, Replay, CallAlone;
    assert CalledBySome(base, s.log, s.workers, i);
    var v :| v in s.workers && LoggedAt(base, s.log, s.workers[v], i);
    LoggedStays(base, s.log, op, s.workers[v], i);
    assert Apart(s.workers[v], s.workers[w]);
    CalledByOne(base, s'.log, s'.workers, v, i);
  }

  lemma {:induction false} FinishedStayLogged(base: Db, s: State, s': State, w: Id, op: Op)
    requires FinishedAreLogged(base, s.log, s.workers) && OnlyMoves(s.workers, s'.workers, w)
    requires s'.log == s.log + [op] && LoggedAt(base, s'.log, s'.workers[w], |s.log|)
    ensures FinishedAreLogged(base, s'.log, s'.workers)
  {
    hide LoggedAt;
    forall v | v in s'.workers && s'.workers[v].pc.Finished? ensures Logged(base, s'.log, s'.workers[v]) {
      if v != w {
        var i :| LoggedAt(base, s.log, s.workers[v], i);
        LoggedStays(base, s.log, op, s.workers[v], i);
      }
    }
  }

  /** The log after a step in which `w` finished its call. */
  lemma {:induction false} LogGrows(base: Db, s: State, s': State, w: Id, op: Op)
    requires PairwiseApart(s.workers) && LogOfFinished(base, s.log, s.workers) && w in s.workers && OnlyMoves(s.workers, s'.workers, w)
    requires !Over(s.workers[w]) && s'.workers[w].group == s.workers[w].group
    requires s'.log == s.log + [op] && LoggedAt(base, s'.log, s'.workers[w], |s.log|)
    ensures LogOfFinished(base, s'.log, s'.workers)
  {
    hide FinishedAreLogged, CalledBySome, LoggedAt, PairwiseApart;
    FinishedStayLogged(base, s, s', w, op);
    LoggedByGroup(base, s'.log, s'.workers[w], |s.log|);
    CalledByOne(base, s'.log, s'.workers, w, |s.log|);
    forall i | 0 <= i < |s.log| && s.log[i].Call?
      ensures CalledBySome(base, s'.log, s'.workers, i) && s.log[i].group != op.group
    {
      EarlierCallStays(base, s, s', w, op, i);
    }
  }

  /** An entry stays the call of its worker when the log is kept or gains one operation. */
  lemma {:induction false} EntryStays(base: Db, log: seq<Op>, log': seq<Op>, worker: Worker, i: int)
    requires LoggedAt(base, log, worker, i) && (log' == log || (|log'| == |log| + 1 && log' == log + [log'[|log|]]))
    ensures LoggedAt(base, log', worker, i)
  {
    hide LoggedAt;
    if log' != log {
      LoggedStays(base, log, log'[|log|], worker, i);
    }
  }

  lemma {:induction false} FinishedAreKept(base: Db, s: State, s': State, w: Id)
    requires FinishedAreLogged(base, s.log, s.workers) && OnlyMoves(s.workers, s'.workers, w)
    requires !s'.workers[w].pc.Finished?
    requires s'.log == s.log || (|s'.log| == |s.log| + 1 && s'.log == s.log + [s'.log[|s.log|]])
    ensures FinishedAreLogged(base, s'.log, s'.workers)
  {
    hide LoggedAt;
    forall v | v in s'.workers && s'.workers[v].pc.Finished? ensures Logged(base, s'.log, s'.workers[v]) {
      assert Logged(base, s.log, s.workers[v]);
      var i :| LoggedAt(base, s.log, s.workers[v], i);
      EntryStays(base, s.log, s'.log, s.workers[v], i);
    }
  }

  lemma {:induction false} CallIsKept(base: Db, s: State, s': State, w: Id, i: int)
    requires CalledBySome(base, s.log, s.workers, i) && OnlyMoves(s.workers, s'.workers, w)
    requires w in s.workers ==> !s.workers[w].pc.Finished?
    requires s'.log == s.log || (|s'.log| == |s.log| + 1 && s'.log == s.log + [s'.log[|s.log|]])
    ensures CalledBySome(base, s'.log, s'.workers, i)
  {
    hide Replay, CallAlone;
    var v :| v in s.workers && LoggedAt(base, s.log, s.workers[v], i);
    EntryStays(base, s.log, s'.log, s.workers[v], i);
    CalledByOne(base, s'.log, s'.workers, v, i);
  }

  /** The log after a step in which no call finished. */
  lemma {:induction false} LogKept(base: Db, s: State, s': State, w: Id)
    requires LogOfFinished(base, s.log, s.workers) && OnlyMoves(s.workers, s'.workers, w)
    requires w in s.workers ==> !s.workers[w].pc.Finished?
    requires !s'.workers[w].pc.Finished?
    requires s'.log == s.log || exists op: Op :: op.Leftover? && s'.log == s.log + [op]
    ensures LogOfFinished(base, s'.log, s'.workers)
  {
    hide FinishedAreLogged, CalledBySome;
    FinishedAreKept(base, s, s', w);
    forall i | 0 <= i < |s'.log| && s'.log[i].Call? ensures CalledBySome(base, s'.log, s'.workers, i) {
      CallIsKept(base, s, s', w, i);
    }
  }

  ghost predicate Linear(base: Db, s: State) {
    AllGuarded(s) && AllGuard(s) && Tables(s, Replay(base, s.log)) && LogOfFinished(base, s.log, s.workers)
  }

  lemma {:induction false} SameFilling(workers: map<Id, Worker>, workers': map<Id, Worker>, w: Id)
    requires OnlyMoves(workers, workers', w)
    requires w in workers ==> Unfilled(workers'[w]) == Unfilled(workers[w])
    requires w !in workers ==> Unfilled(workers'[w]) == None
    ensures forall id: Id :: BeingFilled(workers', id) == BeingFilled(workers, id)
  {
  }

  /** The step of `w` publishes nothing and finishes nothing. */
  predicate OnlyWaits(s: State, s': State, w: Id) {
    && OnlyMoves(s.workers, s'.workers, w) && !s'.workers[w].pc.Finished? && Guarded(s'.workers[w].kind)
    && (w in s.workers ==> !s.workers[w].pc.Finished? && Unfilled(s'.workers[w]) == Unfilled(s.workers[w])
                           && s'.workers[w].kind == s.workers[w].kind && s'.workers[w].group == s.workers[w].group)
    && (w !in s.workers ==> Unfilled(s'.workers[w]) == None)
    && s'.rows == s.rows && s'.groups == s.groups && s'.log == s.log
  }

  lemma {:induction false} SameAnnounced(s: State, s': State, w: Id, g: (Kind, Id))
    requires OnlyWaits(s, s', w) && Announced(s.workers, g)
    ensures Announced(s'.workers, g)
  {
    var v :| v in s.workers && Unfilled(s.workers[v]).Some? && g == (s.workers[v].kind, s.workers[v].group);
    assert Unfilled(s'.workers[v]).Some? && g == (s'.workers[v].kind, s'.workers[v].group);
  }

  lemma {:induction false} WaitingKeepsGroups(s: State, s': State, w: Id, db: set<(Kind, Id)>)
    requires OnlyWaits(s, s', w) && GroupTables(s.groups, s.workers, db)
    ensures GroupTables(s'.groups, s'.workers, db)
  {
    hide Announced;
    forall g | g in s'.groups && g !in db ensures Announced(s'.workers, g) {
      SameAnnounced(s, s', w, g);
    }
  }

  lemma {:induction false} WaitingIsLinear(base: Db, s: State, s': State, w: Id)
    requires Linear(base, s) && OnlyWaits(s, s', w) && AllGuard(s')
    ensures Linear(base, s')
  {
    hide AllGuard, LogOfFinished, GroupTables, BeingFilled, Replay;
    LogKept(base, s, s', w);
    SameFilling(s.workers, s'.workers, w);
    WaitingKeepsGroups(s, s', w, Replay(base, s.log).groups);
  }

  lemma {:induction false} ReplayOne(base: Db, log: seq<Op>, op: Op)
    ensures Replay(base, log + [op]) == OpAlone(Replay(base, log), op)
  {
  }

  /** A settled target has the same row in the tables of the log. */
  lemma {:induction false} TargetIsReplayed(s: State, db: Db, w: Id)
    requires Regular(s) && AllGuarded(s) && AllGuard(s) && Tables(s, db) && w in s.workers && !Over(s.workers[w])
    ensures s.workers[w].target in s.rows <==> s.workers[w].target in db.rows
    ensures s.workers[w].target in s.rows ==> s.rows[s.workers[w].target] == db.rows[s.workers[w].target]
  {
    hide Regular, AllGuarded, AllGuard, GroupTables;
    KindIsGuarded(s, w);
    TargetIsDrawn(s, w);
    assert !BeingFilled(s.workers, s.workers[w].target) by {
      forall v | v in s.workers ensures Unfilled(s.workers[v]) != Some(s.workers[w].target) {
        WorkersAreClear(s, v, w);
      }
    }
  }

  /** A step that completes the call of `w`: the tables gain exactly what the call does alone. */
  lemma {:induction false} FinishIsLogged(base: Db, log: seq<Op>, worker: Worker, result: Option<Id>, op: Op)
    requires op.Call? && op == CallOf(worker, op.drawn) && CallAlone(Replay(base, log), op).1 == result
    ensures LoggedAt(base, log + [op], worker.(pc := Finished(result)), |log|)
  {
  }

  lemma {:induction false} FinishIsLinear(base: Db, s: State, s': State, w: Id, op: Op)
    requires AllGuarded(s) && LogOfFinished(base, s.log, s.workers) && PairwiseApart(s.workers) && AllGuard(s')
    requires w in s.workers && OnlyMoves(s.workers, s'.workers, w) && !Over(s.workers[w])
    requires s'.workers[w].pc.Finished? && s'.workers[w] == s.workers[w].(pc := s'.workers[w].pc)
    requires op.Call? && s'.log == s.log + [op] && op == CallOf(s.workers[w], op.drawn)
    requires CallAlone(Replay(base, s.log), op).1 == s'.workers[w].pc.result
    requires Tables(s', CallAlone(Replay(base, s.log), op).0)
    ensures Linear(base, s')
  {
    hide AllGuard, Tables, CallAlone, Replay, LogOfFinished, PairwiseApart;
    FinishIsLogged(base, s.log, s.workers[w], s'.workers[w].pc.result, op);
    LogGrows(base, s, s', w, op);
    ReplayOne(base, s.log, op);
  }

  /** The statements that publish nothing and finish nothing. */
  predicate Waits(s: State, step: Step) {
    match step
    case Begin(_, _, _, _, _) => true
    case Read(_, _) => true
    case Swap(_) => true
    case ReadBack(_) => true
    case Lock(w) => w in s.workers && s.workers[w].target in s.rows
    case Abort(w) => w in s.workers && Unfilled(s.workers[w]) == None
    case _ => false
  }

  lemma {:induction false} WaitingStepWaits(s: State, step: Step)
    requires AllGuarded(s) && Enabled(s, step) && GuardedOnly(step) && Waits(s, step)
    ensures OnlyWaits(s, Apply(s, step), step.worker)
  {
  }

  /** When `w` neither fills before nor after, the half-done clones are those of the others. */
  lemma {:induction false} TablesWithoutW(s: State, s': State, w: Id, db: Db, db': Db)
    requires Tables(s, db) && w in s.workers && OnlyMoves(s.workers, s'.workers, w)
    requires Unfilled(s.workers[w]) == None && Unfilled(s'.workers[w]) == None
    requires forall id | id in db'.rows :: id in s'.rows && s'.rows[id] == db'.rows[id]
    requires forall id | id in db'.rows && id !in db.rows :: !BeingFilled(s.workers, id)
    requires forall id | id in s'.rows :: id in db'.rows || (id in s.rows && id !in db.rows)
    requires s'.groups - s.groups <= db'.groups && db.groups <= db'.groups <= s'.groups && s.groups <= s'.groups
    ensures Tables(s', db')
  {
  }

  lemma {:induction false} LockTables(s: State, w: Id, db: Db)
    requires Regular(s) && AllGuarded(s) && AllGuard(s) && Tables(s, db) && CanLock(s, w) && s.workers[w].target !in s.rows
    ensures var s', alone := ApplyLock(s, w), CallAlone(db, CallOf(s.workers[w], s.nextRow));
            Tables(s', alone.0) && alone.1 == s'.workers[w].pc.result
  {
    hide Regular, AllGuard, BeingFilled;
    var s' := ApplyLock(s, w);
    TargetIsReplayed(s, db, w);
    TablesWithoutW(s, s', w, db, CallAlone(db, CallOf(s.workers[w], s.nextRow)).0);
  }

  /** A call whose pipeline is gone ends with its group alone. */
  lemma {:induction false} LockIsLinear(base: Db, s: State, w: Id)
    requires Regular(s) && Linear(base, s) && CanLock(s, w) && s.workers[w].target !in s.rows
    ensures Linear(base, ApplyLock(s, w))
  {
    hide Regular, AllGuard, Tables, CallAlone, LogOfFinished, PairwiseApart;
    StepKeepsGuards(s, Lock(w));
    LockTables(s, w, Replay(base, s.log));
    RowsAreDrawn(s);
    FinishIsLinear(base, s, ApplyLock(s, w), w, CallOf(s.workers[w], s.nextRow));
  }

  lemma {:induction false} CommitSwapTables(s: State, w: Id, db: Db)
    requires Regular(s) && AllGuarded(s) && AllGuard(s) && Tables(s, db) && CanCommitSwap(s, w)
    ensures var s', alone := ApplyCommitSwap(s, w), CallAlone(db, CallOf(s.workers[w], s.nextRow));
            Tables(s', alone.0) && alone.1 == s'.workers[w].pc.result
  {
    hide Regular, AllGuard, BeingFilled;
    var s' := ApplyCommitSwap(s, w);
    WorkerIsGuarded(s, w);
    TargetIsReplayed(s, db, w);
    TablesWithoutW(s, s', w, db, CallAlone(db, CallOf(s.workers[w], s.nextRow)).0);
  }

  lemma {:induction false} CommitSwapIsLinear(base: Db, s: State, w: Id)
    requires Regular(s) && Linear(base, s) && CanCommitSwap(s, w)
    ensures Linear(base, ApplyCommitSwap(s, w))
  {
    hide Regular, AllGuard, Tables, CallAlone, LogOfFinished, PairwiseApart;
    StepKeepsGuards(s, CommitSwap(w));
    CommitSwapTables(s, w, Replay(base, s.log));
    RowsAreDrawn(s);
    FinishIsLinear(base, s, ApplyCommitSwap(s, w), w, CallOf(s.workers[w], s.nextRow));
  }

  /** The test-run clone is complete when it becomes visible. */
  lemma {:induction false} TestRunCloneIsLinear(base: Db, s: State, w: Id)
    requires Regular(s) && Linear(base, s) && w in s.workers && s.workers[w].pc.Cloning?
    requires s.workers[w].kind == TestRun
    ensures Linear(base, ApplyClone(s, w))
  {
    hide Regular, AllGuard, Tables, CallAlone, LogOfFinished, PairwiseApart;
    StepKeepsGuards(s, Clone(w));
    TestRunCloneTables(s, w, Replay(base, s.log));
    RowsAreDrawn(s);
    FinishIsLinear(base, s, ApplyClone(s, w), w, CallOf(s.workers[w], s.nextRow));
  }

  lemma {:induction false} TestRunCloneTables(s: State, w: Id, db: Db)
    requires Regular(s) && AllGuarded(s) && AllGuard(s) && Tables(s, db) && w in s.workers
    requires s.workers[w].pc.Cloning? && s.workers[w].kind == TestRun
    ensures var s', alone := ApplyClone(s, w), CallAlone(db, CallOf(s.workers[w], s.nextRow));
            Tables(s', alone.0) && alone.1 == s'.workers[w].pc.result
  {
    hide Regular, AllGuard, BeingFilled;
    var s' := ApplyClone(s, w);
    WorkerIsGuarded(s, w);
    TargetIsReplayed(s, db, w);
    NobodyFillsTheNextRow(s);
    TestRunClone(s, w, db);
    TablesWithoutW(s, s', w, db, CallAlone(db, CallOf(s.workers[w], s.nextRow)).0);
  }

  /** The row that the step inserts is the one that the call alone makes. */
  lemma {:induction false} TestRunClone(s: State, w: Id, db: Db)
    requires w in s.workers && s.workers[w].pc.Cloning? && s.workers[w].kind == TestRun
    requires Guards(s.rows, s.locks, w, s.workers[w])
    requires s.workers[w].target in db.rows && db.rows[s.workers[w].target] == s.rows[s.workers[w].target]
    ensures var s', alone := ApplyClone(s, w), CallAlone(db, CallOf(s.workers[w], s.nextRow));
            && s.nextRow in s'.rows && alone.1 == s'.workers[w].pc.result
            && alone.0.rows == db.rows[s.nextRow := s'.rows[s.nextRow]]
  {
    var worker := s.workers[w];
    var links := CloneLinks(TestRun, worker.pc.source, worker.group);
    assert map[] + links == links;
  }

  lemma {:induction false} NobodyFillsTheNextRow(s: State)
    requires Regular(s)
    ensures !BeingFilled(s.workers, s.nextRow) && s.nextRow !in s.rows
  {
    hide Regular, Placed, Grounded;
    RowsAreDrawn(s);
    forall v | v in s.workers ensures Unfilled(s.workers[v]) != Some(s.nextRow) {
      WorkerIsRegular(s, v);
    }
  }

  /** A Copr clone becomes visible without its links: the calls done so far are still the same. */
  lemma {:induction false} PublishIsLinear(base: Db, s: State, w: Id)
    requires Regular(s) && Linear(base, s) && w in s.workers && s.workers[w].pc.Cloning?
    requires s.workers[w].kind == Copr
    ensures Linear(base, ApplyClone(s, w))
  {
    hide Regular, AllGuard, Tables, CallAlone, LogOfFinished, BeingFilled, Replay;
    StepKeepsGuards(s, Clone(w));
    NobodyFillsTheNextRow(s);
    LogKept(base, s, ApplyClone(s, w), w);
    PublishKeepsTables(s, ApplyClone(s, w), w, Replay(base, s.log));
  }

  lemma {:induction false} PublishKeepsTables(s: State, s': State, w: Id, db: Db)
    requires Tables(s, db) && w in s.workers && OnlyMoves(s.workers, s'.workers, w)
    requires Unfilled(s.workers[w]) == None && Unfilled(s'.workers[w]) == Some(s.nextRow)
    requires s.nextRow !in s.rows && s.nextRow in s'.rows && s'.rows == s.rows[s.nextRow := s'.rows[s.nextRow]]
    requires s'.groups == s.groups + {(s'.workers[w].kind, s'.workers[w].group)}
    ensures Tables(s', db)
  {
    forall id: Id ensures BeingFilled(s'.workers, id) <==> BeingFilled(s.workers, id) || id == s.nextRow {
      if BeingFilled(s.workers, id) {
        var v :| v in s.workers && Unfilled(s.workers[v]) == Some(id);
        assert v in s'.workers && Unfilled(s'.workers[v]) == Some(id);
      }
      if BeingFilled(s'.workers, id) && id != s.nextRow {
        var v :| v in s'.workers && Unfilled(s'.workers[v]) == Some(id);
        assert v in s.workers && Unfilled(s.workers[v]) == Some(id);
      }
    }
    forall g | g in s'.groups && g !in db.groups ensures Announced(s'.workers, g) {
      if g in s.groups {
        var v :| v in s.workers && Unfilled(s.workers[v]).Some? && g == (s.workers[v].kind, s.workers[v].group);
        assert v in s'.workers && Unfilled(s'.workers[v]).Some? && g == (s'.workers[v].kind, s'.workers[v].group);
      } else {
        assert w in s'.workers && Unfilled(s'.workers[w]).Some?;
      }
    }
  }

  lemma {:induction false} FillingEnds(workers: map<Id, Worker>, workers': map<Id, Worker>, w: Id, clone: Id)
    requires PairwiseApart(workers) && w in workers && OnlyMoves(workers, workers', w)
    requires Unfilled(workers[w]) == Some(clone) && Unfilled(workers'[w]) == None
    ensures forall id: Id :: BeingFilled(workers', id) <==> BeingFilled(workers, id) && id != clone
  {
  }

  lemma {:induction false} SettleKeepsGroups(
    groups: set<(Kind, Id)>, workers: map<Id, Worker>, workers': map<Id, Worker>, w: Id, db: set<(Kind, Id)>)
    requires GroupTables(groups, workers, db) && w in workers && OnlyMoves(workers, workers', w)
    requires Unfilled(workers[w]).Some? && Unfilled(workers'[w]) == None
    ensures GroupTables(groups, workers', db + {(workers[w].kind, workers[w].group)})
  {
  }

  /** The half-done clone of `w` moves into the tables of the log. */
  lemma {:induction false} SettleKeepsTables(s: State, s': State, w: Id, db: Db, db': Db, clone: Id)
    requires Tables(s, db) && PairwiseApart(s.workers) && w in s.workers && OnlyMoves(s.workers, s'.workers, w)
    requires Unfilled(s.workers[w]) == Some(clone) && Unfilled(s'.workers[w]) == None
    requires clone in s.rows && clone in s'.rows && s'.rows == s.rows[clone := s'.rows[clone]] && s'.groups == s.groups
    requires db' == Db(db.rows[clone := s'.rows[clone]], db.groups + {(s.workers[w].kind, s.workers[w].group)})
    ensures Tables(s', db')
  {
    SettleKeepsGroups(s.groups, s.workers, s'.workers, w, db.groups);
    FillingEnds(s.workers, s'.workers, w, clone);
  }

  /** What the fill writes is what the call alone writes into its clone. */
  lemma {:induction false} FillWritesTheClone(s: State, w: Id, db: Db)
    requires CanFill(s, w) && s.workers[w].kind == Copr && s.workers[w].rest == []
    requires Guards(s.rows, s.locks, w, s.workers[w])
    requires s.workers[w].target in db.rows && db.rows[s.workers[w].target] == s.rows[s.workers[w].target]
    ensures var worker, s' := s.workers[w], ApplyFill(s, w);
            CallAlone(db, CallOf(worker, worker.pc.clone)) ==
            (Db(db.rows[worker.pc.clone := s'.rows[worker.pc.clone]], db.groups + {(worker.kind, worker.group)}),
             Some(worker.pc.clone))
  {
    var worker := s.workers[w];
    CoprCloneLinks(db.rows[worker.target], worker.group);
    assert map[] + map[Copr := worker.group] == map[Copr := worker.group];
  }

  lemma {:induction false} FillShape(s: State, w: Id)
    requires CanFill(s, w) && s.workers[w].rest == []
    ensures var worker, s' := s.workers[w], ApplyFill(s, w);
            && OnlyMoves(s.workers, s'.workers, w) && Unfilled(s'.workers[w]) == None
            && s'.workers[w] == worker.(pc := Finished(Some(worker.pc.clone)))
            && worker.pc.clone in s'.rows && s'.rows == s.rows[worker.pc.clone := s'.rows[worker.pc.clone]]
            && s'.groups == s.groups && s'.log == s.log + [CallOf(worker, worker.pc.clone)]
  {
  }

  lemma {:induction false} FillTables(s: State, w: Id, db: Db)
    requires Regular(s) && AllGuarded(s) && AllGuard(s) && Tables(s, db) && CanFill(s, w)
    requires s.workers[w].rest == []
    ensures var s', alone := ApplyFill(s, w), CallAlone(db, CallOf(s.workers[w], s.workers[w].pc.clone));
            Tables(s', alone.0) && alone.1 == s'.workers[w].pc.result
  {
    hide Regular, AllGuard, Tables, CallAlone, PairwiseApart, ApplyFill;
    WorkerIsGuarded(s, w);
    TargetIsReplayed(s, db, w);
    FillWritesTheClone(s, w, db);
    FillShape(s, w);
    RowsAreDrawn(s);
    SettleKeepsTables(s, ApplyFill(s, w), w, db,
                      CallAlone(db, CallOf(s.workers[w], s.workers[w].pc.clone)).0, s.workers[w].pc.clone);
  }

  lemma {:induction false} FillIsLinear(base: Db, s: State, w: Id)
    requires Regular(s) && Linear(base, s) && CanFill(s, w)
    ensures Linear(base, ApplyFill(s, w))
  {
    hide Regular, AllGuard, Tables, CallAlone, LogOfFinished, PairwiseApart, ApplyFill, Replay;
    WorkerIsRegular(s, w);
    StepKeepsGuards(s, Fill(w));
    FillTables(s, w, Replay(base, s.log));
    FillShape(s, w);
    RowsAreDrawn(s);
    FinishIsLinear(base, s, ApplyFill(s, w), w, CallOf(s.workers[w], s.workers[w].pc.clone));
  }

  lemma {:induction false} LeaveKeepsTables(base: Db, s: State, s': State, w: Id, clone: Id, op: Op)
    requires Tables(s, Replay(base, s.log)) && PairwiseApart(s.workers)
    requires w in s.workers && OnlyMoves(s.workers, s'.workers, w) && clone in s.rows
    requires Unfilled(s.workers[w]) == Some(clone) && Unfilled(s'.workers[w]) == None
    requires s'.rows == s.rows && s'.groups == s.groups && s'.log == s.log + [op]
    requires op == Leftover(clone, s.rows[clone], s.workers[w].kind, s.workers[w].group)
    ensures Tables(s', Replay(base, s'.log))
  {
    ReplayOne(base, s.log, op);
    SettleKeepsTables(s, s', w, Replay(base, s.log), OpAlone(Replay(base, s.log), op), clone);
  }

  lemma {:induction false} LeaveKeepsLog(base: Db, s: State, s': State, w: Id, op: Op)
    requires LogOfFinished(base, s.log, s.workers) && w in s.workers && OnlyMoves(s.workers, s'.workers, w)
    requires !s.workers[w].pc.Finished? && !s'.workers[w].pc.Finished?
    requires op.Leftover? && s'.log == s.log + [op]
    ensures LogOfFinished(base, s'.log, s'.workers)
  {
    LogKept(base, s, s', w);
  }

  lemma {:induction false} AbortShape(s: State, w: Id)
    requires w in s.workers && !Over(s.workers[w])
    requires Unfilled(s.workers[w]).Some? && Unfilled(s.workers[w]).value in s.rows
    ensures var clone, s' := Unfilled(s.workers[w]).value, ApplyAbort(s, w);
            && OnlyMoves(s.workers, s'.workers, w) && s'.workers[w] == s.workers[w].(pc := Failed)
            && s'.rows == s.rows && s'.groups == s.groups
            && s'.log == s.log + [Leftover(clone, s.rows[clone], s.workers[w].kind, s.workers[w].group)]
  {
  }

  lemma {:induction false} LeaveIsLinear(base: Db, s: State, s': State, w: Id, clone: Id, op: Op)
    requires Linear(base, s) && PairwiseApart(s.workers) && AllGuard(s')
    requires w in s.workers && OnlyMoves(s.workers, s'.workers, w) && clone in s.rows
    requires Unfilled(s.workers[w]) == Some(clone) && s'.workers[w] == s.workers[w].(pc := Failed)
    requires s'.rows == s.rows && s'.groups == s.groups && s'.log == s.log + [op]
    requires op == Leftover(clone, s.rows[clone], s.workers[w].kind, s.workers[w].group)
    ensures Linear(base, s')
  {
    hide AllGuard, Tables, LogOfFinished, PairwiseApart, Replay;
    LeaveKeepsLog(base, s, s', w, op);
    LeaveKeepsTables(base, s, s', w, clone, op);
  }

  lemma {:induction false} AbortIsLinear(base: Db, s: State, w: Id)
    requires Regular(s) && Linear(base, s) && w in s.workers && !Over(s.workers[w]) && Unfilled(s.workers[w]).Some?
    ensures Linear(base, ApplyAbort(s, w))
  {
    hide Regular, AllGuard, PairwiseApart, Linear, ApplyAbort;
    var clone := Unfilled(s.workers[w]).value;
    WorkerIsRegular(s, w);
    StepKeepsGuards(s, Abort(w)) by {
      LinearGuards(base, s);
    }
    AbortShape(s, w);
    RowsAreDrawn(s);
    LeaveIsLinear(base, s, ApplyAbort(s, w), w, clone,
                  Leftover(clone, s.rows[clone], s.workers[w].kind, s.workers[w].group));
  }

  lemma LinearGuards(base: Db, s: State)
    requires Linear(base, s)
    ensures AllGuard(s) && AllGuarded(s) && Tables(s, Replay(base, s.log)) && LogOfFinished(base, s.log, s.workers)
  {
  }

  lemma {:induction false} StepIsLinear(base: Db, s: State, step: Step)
    requires Regular(s) && Linear(base, s)
    requires Enabled(s, step) && GuardedOnly(step) && StartsSettled(s, step, GUARDED)
    ensures Linear(base, Apply(s, step))
  {
    hide Regular, Linear, AllGuard, StartsSettled, Tables, LogOfFinished, ApplyBegin, ApplyRead, ApplySwap,
      ApplyCommitSwap, ApplyLock, ApplyClone, ApplyReadBack, ApplyFill, ApplyAbort;
    LinearGuards(base, s);
    if Waits(s, step) {
      StepKeepsGuards(s, step);
      WaitingStepWaits(s, step);
      WaitingIsLinear(base, s, Apply(s, step), step.worker);
    } else {
      match step
      case CommitSwap(w) => CommitSwapIsLinear(base, s, w);
      case Lock(w) => LockIsLinear(base, s, w);
      case Clone(w) =>
        if s.workers[w].kind == TestRun {
          TestRunCloneIsLinear(base, s, w);
        } else {
          PublishIsLinear(base, s, w);
        }
      case Fill(w) => FillIsLinear(base, s, w);
      case Abort(w) => AbortIsLinear(base, s, w);
    }
  }

  // ---- Whole runs ----

  /** The id that the operation has drawn for its clone. */
  function NewId(op: Op): Id {
    match op
    case Call(_, _, _, _, _, drawn) => drawn
    case Leftover(clone, _, _, _) => clone
  }

  /** No operation of the log draws an id that is taken at its place. */
  ghost predicate LogIsFresh(base: Db, log: seq<Op>) {
    forall i | 0 <= i < |log| :: NewId(log[i]) !in Replay(base, log[..i]).rows
  }

  /** A step logs nothing, or one operation whose id the tables of the log do not have. */
  lemma {:induction false} StepLogsANewId(s: State, db: Db, step: Step)
    requires Regular(s) && Tables(s, db) && Enabled(s, step)
    ensures var log' := Apply(s, step).log;
            log' == s.log || exists op :: log' == s.log + [op] && NewId(op) !in db.rows
  {
    hide Regular, BeingFilled, GroupTables;
    NobodyFillsTheNextRow(s);
    var log' := Apply(s, step).log;
    if log' != s.log {
      if step.Fill? || step.Abort? {
        FillsIt(s.workers, step.worker);
      }
      assert log' == s.log + [log'[|s.log|]];
    }
  }

  lemma FillsIt(workers: map<Id, Worker>, w: Id)
    requires w in workers
    ensures Unfilled(workers[w]).Some? ==> BeingFilled(workers, Unfilled(workers[w]).value)
  {
  }

  lemma {:induction false} StepKeepsLogFresh(base: Db, s: State, step: Step)
    requires Regular(s) && Tables(s, Replay(base, s.log)) && LogIsFresh(base, s.log) && Enabled(s, step)
    ensures LogIsFresh(base, Apply(s, step).log)
  {
    hide Regular, Tables, Replay, Apply, Enabled;
    var log' := Apply(s, step).log;
    StepLogsANewId(s, Replay(base, s.log), step);
    forall i | 0 <= i < |log'| ensures NewId(log'[i]) !in Replay(base, log'[..i]).rows {
      assert log'[..|s.log|] == s.log;
      assert i < |s.log| ==> log'[..i] == s.log[..i];
    }
  }

  /** What every run of guarded calls keeps. */
  ghost predicate Accounted(base: Db, s: State) {
    Linear(base, s) && LogIsFresh(base, s.log)
  }

  lemma {:induction false} StepIsAccounted(base: Db, s: State, step: Step)
    requires Regular(s) && Accounted(base, s)
    requires Enabled(s, step) && GuardedOnly(step) && StartsSettled(s, step, GUARDED)
    ensures Accounted(base, Apply(s, step))
  {
    hide Regular, Linear, LogIsFresh, Apply, Enabled, StartsSettled, Tables, LogOfFinished, AllGuard;
    LinearGuards(base, s);
    StepIsLinear(base, s, step);
    StepKeepsLogFresh(base, s, step);
  }

  lemma {:induction false} RunIsAccounted(base: Db, s: State, steps: seq<Step>)
    requires Regular(s) && Accounted(base, s) && Runs(s, steps) && Disciplined(s, steps, GUARDED)
    requires forall i | 0 <= i < |steps| :: GuardedOnly(steps[i])
    ensures Regular(Execute(s, steps)) && Accounted(base, Execute(s, steps))
    decreases |steps|
  {
    hide Regular, Accounted, Apply, Enabled, GuardedOnly, StartsSettled;
    if steps != [] {
      StepIsAccounted(base, s, steps[0]);
      StepIsRegular(s, steps[0]);
      RunIsAccounted(base, Apply(s, steps[0]), steps[1..]);
    }
  }

  lemma {:induction false} QuietIsAccounted(s: State)
    requires Quiet(s)
    ensures Accounted(Db(s.rows, s.groups), s)
  {
  }

  lemma {:induction false} GuardedRunIsAccounted(s: State, steps: seq<Step>)
    requires Quiet(s) && Runs(s, steps) && Disciplined(s, steps, GUARDED)
    requires forall i | 0 <= i < |steps| :: GuardedOnly(steps[i])
    ensures Regular(Execute(s, steps)) && Accounted(Db(s.rows, s.groups), Execute(s, steps))
  {
    hide Regular, Quiet, Accounted, Runs, Disciplined, GuardedOnly;
    QuietIsRegular(s);
    QuietIsAccounted(s);
    RunIsAccounted(Db(s.rows, s.groups), s, steps);
  }

  /** Every worker has returned or raised. */
  predicate AllOver(s: State) {
    forall w | w in s.workers :: Over(s.workers[w])
  }

  lemma {:induction false} SettledTables(s: State, db: Db)
    requires Tables(s, db) && AllOver(s)
    ensures s.rows == db.rows && s.groups == db.groups
  {
    forall w | w in s.workers ensures Unfilled(s.workers[w]) == None {
    }
    assert s.rows == db.rows;
    assert s.groups == db.groups;
  }

  /** These operations, one after another, explain the tables and what the calls returned. */
  ghost predicate Explains(base: Db, log: seq<Op>, end: State) {
    && Db(end.rows, end.groups) == Replay(base, log)
    && LogIsFresh(base, log) && LogOfFinished(base, log, end.workers)
  }

  /**
  Copr and test-run creates are linearizable.  When all workers are done the tables equal those
  of the logged calls run one after another; every call draws an id that is not taken at its
  place; the calls that returned are in the log once each, and each returned what it returns when
  it runs alone at its place.
  */
  lemma {:induction false} CreatesAreLinearizable(s: State, steps: seq<Step>)
    requires Quiet(s) && Runs(s, steps) && Disciplined(s, steps, GUARDED)
    requires forall i | 0 <= i < |steps| :: GuardedOnly(steps[i])
    requires AllOver(Execute(s, steps))
    ensures Explains(Db(s.rows, s.groups), Execute(s, steps).log, Execute(s, steps))
  {
    hide Regular, Quiet, Runs, Disciplined, GuardedOnly, AllOver, Execute, LogIsFresh, LogOfFinished, Replay,
      Tables, AllGuard, AllGuarded;
    var end, base := Execute(s, steps), Db(s.rows, s.groups);
    GuardedRunIsAccounted(s, steps);
    SettledTables(end, Replay(base, end.log));
  }

  // ---- Real time ----

  /** A step only appends to the log; a worker that is over stays as it is, and none changes its group. */
  predicate GoesOn(s: State, s': State) {
    && s.log <= s'.log
    && forall w | w in s.workers ::
         && w in s'.workers && s'.workers[w].group == s.workers[w].group
         && (Over(s.workers[w]) ==> s'.workers[w] == s.workers[w])
  }

  lemma {:induction false} LogOnlyGrows(s: State, step: Step)
    requires Enabled(s, step)
    ensures s.log <= Apply(s, step).log
  {
    hide Blank, ClonePackage, CloneLinks, CloneSrpm, SetColumns, Guarded, CopiesSrpm, Unlocked;
  }

  lemma {:induction false} StepGoesOn(s: State, step: Step)
    requires Enabled(s, step)
    ensures GoesOn(s, Apply(s, step))
  {
    hide Apply, Enabled;
    LogOnlyGrows(s, step);
    StepMovesOne(s, step);
  }

  lemma {:induction false} RunGoesOn(s: State, steps: seq<Step>)
    requires Runs(s, steps)
    ensures GoesOn(s, Execute(s, steps))
    decreases |steps|
  {
    hide Apply, Enabled;
    if steps != [] {
      StepGoesOn(s, steps[0]);
      RunGoesOn(Apply(s, steps[0]), steps[1..]);
    }
  }

  lemma {:induction false} RunInParts(s: State, before: seq<Step>, after: seq<Step>)
    requires Runs(s, before + after)
    ensures Runs(s, before) && Runs(Execute(s, before), after)
    ensures Execute(s, before + after) == Execute(Execute(s, before), after)
    ensures Disciplined(s, before + after, GUARDED) ==>
              Disciplined(s, before, GUARDED) && Disciplined(Execute(s, before), after, GUARDED)
    decreases |before|
  {
    hide Apply, Enabled, StartsSettled;
    if before == [] {
      assert before + after == after;
    } else {
      assert (before + after)[1..] == before[1..] + after;
      RunInParts(Apply(s, before[0]), before[1..], after);
    }
  }

  /** An operation that was logged before worker `w` began is not its call. */
  lemma {:induction false} LaterCallsAreLoggedLater(base: Db, mid: State, end: State, w: Id, j: int)
    requires LogOfFinished(base, mid.log, mid.workers) && GoesOn(mid, end) && Regular(end)
    requires w !in mid.workers && w in end.workers && LoggedAt(base, end.log, end.workers[w], j)
    ensures |mid.log| <= j
  {
    hide Regular, Replay, CallAlone, FinishedAreLogged, CallsDiffer;
    if j < |mid.log| {
      assert CalledBySome(base, mid.log, mid.workers, j);
      var u :| u in mid.workers && LoggedAt(base, mid.log, mid.workers[u], j);
      RegularlyApart(end, u, w);
      assert false;
    }
  }

  /** The call that a worker finished by now has its one place in the log already. */
  lemma {:induction false} FinishedCallsAreLoggedByNow(base: Db, mid: State, end: State, v: Id, i: int)
    requires LogOfFinished(base, mid.log, mid.workers) && LogOfFinished(base, end.log, end.workers) && GoesOn(mid, end)
    requires v in mid.workers && mid.workers[v].pc.Finished? && LoggedAt(base, end.log, end.workers[v], i)
    ensures i < |mid.log|
  {
    hide Replay, CallAlone, CalledBySome;
    assert Logged(base, mid.log, mid.workers[v]);
    var k :| LoggedAt(base, mid.log, mid.workers[v], k);
    assert end.log[k] == mid.log[k] && end.log[k].group == end.log[i].group;
  }

  /** A call that was over before another one began comes before it in the log. */
  lemma {:induction false} CallsKeepRealTimeOrder(
    s: State, before: seq<Step>, after: seq<Step>, v: Id, w: Id, i: int, j: int)
    requires Quiet(s) && Runs(s, before + after) && Disciplined(s, before + after, GUARDED)
    requires forall k | 0 <= k < |before + after| :: GuardedOnly((before + after)[k])
    requires var base, end := Db(s.rows, s.groups), Execute(s, before + after);
             && v in end.workers && LoggedAt(base, end.log, end.workers[v], i)
             && w in end.workers && LoggedAt(base, end.log, end.workers[w], j)
    requires Runs(s, before) && v in Execute(s, before).workers && Over(Execute(s, before).workers[v])
    requires w !in Execute(s, before).workers
    ensures i < j
  {
    hide Regular, Quiet, Runs, Disciplined, GuardedOnly, LoggedAt, GoesOn, LogOfFinished, Execute, AllGuard;
    var base, mid, end := Db(s.rows, s.groups), Execute(s, before), Execute(s, before + after);
    RunInParts(s, before, after);
    RunGoesOn(mid, after);
    forall k | 0 <= k < |before| ensures GuardedOnly(before[k]) {
      assert before[k] == (before + after)[k];
    }
    GuardedRunIsAccounted(s, before);
    GuardedRunIsAccounted(s, before + after);
    LaterCallsAreLoggedLater(base, mid, end, w, j);
    assert mid.workers[v].pc.Finished? by {
      OverAndLogged(base, mid, end, v, i);
    }
    FinishedCallsAreLoggedByNow(base, mid, end, v, i);
  }

  lemma OverAndLogged(base: Db, mid: State, end: State, v: Id, i: int)
    requires GoesOn(mid, end) && v in mid.workers && Over(mid.workers[v]) && LoggedAt(base, end.log, end.workers[v], i)
    ensures mid.workers[v].pc.Finished?
  {
  }
}
