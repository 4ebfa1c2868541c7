/**
What holds in every run of the creating calls, wherever they are started: ids and groups are
drawn once, each worker stands where its kind of call can stand, the rows that it works on are
there, and only calls that are about to commit hold row locks.
*/
module CreationInvariants {
  import opened Options
  import opened PipelineCreation

  predicate Links(row: Row, key: (Kind, Id)) {
    key.0 in row.links && row.links[key.0] == key.1
  }

  function LinkOf(rows: map<Id, Row>, id: Id, kind: Kind): Option<Id> {
    if id in rows && kind in rows[id].links then Some(rows[id].links[kind]) else None
  }

  /** The pipelines that a worker still reads or updates. */
  function Targets(worker: Worker): seq<Id> {
    if Over(worker) || worker.kind == Srpm || worker.kind == SyncRelease then []
    else [worker.target] + worker.rest
  }

  predicate Drawn(worker: Worker, nextRow: Id, nextGroup: Id) {
    worker.group < nextGroup && forall t | t in Targets(worker) :: t < nextRow
  }

  predicate Apart(a: Worker, b: Worker) {
    a.group != b.group && (Unfilled(a).Some? ==> Unfilled(a) != Unfilled(b))
  }

  ghost predicate PairwiseApart(workers: map<Id, Worker>) {
    forall v, w | v in workers && w in workers && v != w :: Apart(workers[v], workers[w])
  }

  /** The workers after a step: only `w` moves. */
  predicate OnlyMoves(workers: map<Id, Worker>, workers': map<Id, Worker>, w: Id) {
    && w in workers' && workers'.Keys == workers.Keys + {w}
    && forall v | v in workers && v != w :: workers'[v] == workers[v]
  }

  /** A worker keeps its kind and group, may drop targets, and may fill nothing but a row drawn now. */
  predicate MovesOn(worker: Worker, worker': Worker, nextRow: Id) {
    && worker'.group == worker.group && worker'.kind == worker.kind
    && (forall t | t in Targets(worker') :: t in Targets(worker))
    && (Unfilled(worker').Some? ==> Unfilled(worker') == Unfilled(worker) || Unfilled(worker').value == nextRow)
  }

  lemma {:induction false} MoverKeepsItsGroup(s: State, step: Step)
    requires Enabled(s, step) && !step.Insert? && step.worker in s.workers
    ensures !Over(s.workers[step.worker]) && step.worker in Apply(s, step).workers
    ensures var moved := Apply(s, step).workers[step.worker];
            moved.group == s.workers[step.worker].group && moved.kind == s.workers[step.worker].kind
  {
    hide Blank, ClonePackage, CloneLinks, CloneSrpm, SetColumns, Guarded, CopiesSrpm, Unlocked;
  }

  /** Every statement is that of one worker; the others stay where they are. */
  lemma {:induction false} StepMovesOne(s: State, step: Step)
    requires Enabled(s, step)
    ensures step.Insert? ==> Apply(s, step).workers == s.workers
    ensures !step.Insert? ==> OnlyMoves(s.workers, Apply(s, step).workers, step.worker)
    ensures !step.Insert? && step.worker in s.workers ==>
              && !Over(s.workers[step.worker]) && Apply(s, step).workers[step.worker].group == s.workers[step.worker].group
              && Apply(s, step).workers[step.worker].kind == s.workers[step.worker].kind
  {
    if !step.Insert? && step.worker in s.workers {
      MoverKeepsItsGroup(s, step);
    }
    hide Over, Blank, ClonePackage, CloneLinks, CloneSrpm, SetColumns, Guarded, CopiesSrpm, Unlocked;
  }

  /** The worker whose statement it is keeps to its call. */
  lemma {:induction false} StepMovesOn(s: State, step: Step)
    requires Enabled(s, step) && !step.Insert? && step.worker in s.workers
    ensures MovesOn(s.workers[step.worker], Apply(s, step).workers[step.worker], s.nextRow)
  {
    hide Blank, Unlocked, CloneLinks, ClonePackage, CloneSrpm, SetColumns, Guarded, CopiesSrpm;
  }

  /** What can be said of every worker without looking at the rows. */
  predicate Placed(worker: Worker) {
    && (worker.kind != LogDetective ==> worker.rest == [])
    && (worker.kind == Srpm || worker.kind == SyncRelease ==> worker.pc.Filling? || Over(worker))
    && match worker.pc
       case Reading => worker.kind != TestRun
       case Swapping => Guarded(worker.kind)
       case Swapped => Guarded(worker.kind)
       case Locking => Guarded(worker.kind)
       case Assigning => !Guarded(worker.kind)
       case ReadingBack(_) => !ClonesInOneTransaction(worker.kind)
       case Filling(_, _, links) =>
         && !ClonesInOneTransaction(worker.kind) && TestRun !in links
         && (worker.kind != Srpm ==> worker.kind in links && links[worker.kind] == worker.group)
       case _ => true
  }

  ghost predicate AllPlaced(s: State) {
    forall w | w in s.workers :: Placed(s.workers[w])
  }

  lemma {:induction false} NewcomerIsPlaced(s: State, step: Step)
    requires Enabled(s, step) && (step.Begin? || step.BeginNewRun?)
    ensures Placed(Apply(s, step).workers[step.worker])
  {
    hide Blank;
  }

  lemma {:induction false} MovedIsPlaced(s: State, step: Step)
    requires Enabled(s, step) && !step.Insert? && (step.worker in s.workers ==> Placed(s.workers[step.worker]))
    ensures Placed(Apply(s, step).workers[step.worker])
  {
    if step.Begin? || step.BeginNewRun? {
      NewcomerIsPlaced(s, step);
      hide Placed;
    }
    hide Blank, ClonePackage, CloneSrpm, SetColumns, Unlocked;
  }

  lemma {:induction false} StepKeepsPlaced(s: State, step: Step)
    requires AllPlaced(s) && Enabled(s, step)
    ensures AllPlaced(Apply(s, step))
  {
    hide Apply, Enabled, Placed;
    StepMovesOne(s, step);
    if !step.Insert? {
      MovedIsPlaced(s, step);
    }
  }

  // ---- Ids and groups ----

  predicate WorkerDrawn(worker: Worker, nextRow: Id, nextGroup: Id) {
    Drawn(worker, nextRow, nextGroup) && (Unfilled(worker).Some? ==> Unfilled(worker).value < nextRow)
  }

  ghost predicate AllDrawn(s: State) {
    && (forall id | id in s.rows :: id < s.nextRow)
    && (forall w | w in s.workers :: WorkerDrawn(s.workers[w], s.nextRow, s.nextGroup))
    && PairwiseApart(s.workers)
  }

  lemma {:induction false} IdsOnlyGrow(s: State, step: Step)
    requires Enabled(s, step)
    ensures s.nextRow <= Apply(s, step).nextRow && s.nextGroup <= Apply(s, step).nextGroup
    ensures forall id | id in s.rows :: id in Apply(s, step).rows
  {
    hide Blank, Unlocked, CloneLinks, ClonePackage, CloneSrpm, SetColumns, Guarded, CopiesSrpm;
  }

  /** A statement adds at most the row whose id is the next one. */
  lemma {:induction false} NewRowIsTheNext(s: State, step: Step, id: Id)
    requires Enabled(s, step) && id in Apply(s, step).rows && id !in s.rows
    ensures id == s.nextRow && s.nextRow < Apply(s, step).nextRow
  {
    hide Blank, Unlocked, CloneLinks, ClonePackage, CloneSrpm, SetColumns, Guarded, CopiesSrpm;
  }

  /** A worker that goes on fills what it filled before, or the row that it has just inserted. */
  lemma {:induction false} NewCloneIsTheNext(s: State, step: Step)
    requires Enabled(s, step) && !step.Insert?
    ensures var clone := Unfilled(Apply(s, step).workers[step.worker]);
            clone.Some? ==>
              || (step.worker in s.workers && Unfilled(s.workers[step.worker]) == clone)
              || (clone.value == s.nextRow && s.nextRow < Apply(s, step).nextRow)
  {
    hide Blank, Unlocked, CloneLinks, ClonePackage, CloneSrpm, SetColumns, Guarded, CopiesSrpm;
  }

  /** What a call brings along when it begins. */
  lemma {:induction false} Newcomer(s: State, step: Step)
    requires Enabled(s, step) && (step.Begin? || step.BeginNewRun?)
    ensures step.worker !in s.workers
    ensures var newcomer := Apply(s, step).workers[step.worker];
            && newcomer.kind == step.kind && newcomer.group == s.nextGroup < Apply(s, step).nextGroup
            && (step.Begin? ==> Unfilled(newcomer) == None && forall t | t in Targets(newcomer) :: t in step.targets)
            && (step.BeginNewRun? ==> Targets(newcomer) == [] && Unfilled(newcomer) == Some(s.nextRow))
            && (forall t | t in Targets(newcomer) :: t < s.nextRow)
  {
  }

  lemma {:induction false} NewcomersBegin(s: State, step: Step)
    requires Enabled(s, step) && !step.Insert? && step.worker !in s.workers
    ensures step.Begin? || step.BeginNewRun?
  {
  }

  lemma {:induction false} MovedIsDrawn(s: State, step: Step)
    requires AllDrawn(s) && Enabled(s, step) && !step.Insert?
    ensures WorkerDrawn(Apply(s, step).workers[step.worker], Apply(s, step).nextRow, Apply(s, step).nextGroup)
  {
    hide Apply, Enabled, Unfilled, Targets, PairwiseApart;
    IdsOnlyGrow(s, step);
    NewCloneIsTheNext(s, step);
    if step.worker in s.workers {
      StepMovesOn(s, step);
    } else {
      NewcomersBegin(s, step);
      Newcomer(s, step);
    }
  }

  lemma {:induction false} MovedIsApart(s: State, step: Step, v: Id)
    requires AllDrawn(s) && Enabled(s, step) && !step.Insert? && v in s.workers && v != step.worker
    ensures var moved := Apply(s, step).workers[step.worker]; Apart(moved, s.workers[v]) && Apart(s.workers[v], moved)
  {
    hide Apply, Enabled, Targets;
    NewCloneIsTheNext(s, step);
    assert WorkerDrawn(s.workers[v], s.nextRow, s.nextGroup);
    if step.worker in s.workers {
      StepMovesOn(s, step);
      assert Apart(s.workers[step.worker], s.workers[v]) && Apart(s.workers[v], s.workers[step.worker]);
    } else {
      NewcomersBegin(s, step);
      Newcomer(s, step);
    }
  }

  lemma {:induction false} StepKeepsDrawn(s: State, step: Step)
    requires AllDrawn(s) && Enabled(s, step)
    ensures AllDrawn(Apply(s, step))
  {
    hide Apply, Enabled, Apart, Unfilled, Targets;
    var s' := Apply(s, step);
    IdsOnlyGrow(s, step);
    StepMovesOne(s, step);
    forall id | id in s'.rows ensures id < s'.nextRow {
      if id !in s.rows {
        NewRowIsTheNext(s, step, id);
      }
    }
    if !step.Insert? {
      MovedIsDrawn(s, step);
      forall v | v in s.workers && v != step.worker
        ensures Apart(s'.workers[step.worker], s.workers[v]) && Apart(s.workers[v], s'.workers[step.worker])
      {
        MovedIsApart(s, step, v);
      }
    }
  }

  // ---- Rows ----

  /** The rows that the worker's next statements need. */
  predicate Grounded(rows: map<Id, Row>, worker: Worker) {
    match worker.pc
    case Swapped => worker.target in rows
    case Cloning(_) => worker.target in rows
    case ReadingBack(clone) => worker.target in rows && clone in rows
    case Filling(clone, _, _) => worker.target in rows && clone in rows
    case _ => true
  }

  ghost predicate AllGrounded(s: State) {
    forall w | w in s.workers :: Grounded(s.rows, s.workers[w])
  }

  lemma {:induction false} MovedIsGrounded(s: State, step: Step)
    requires Enabled(s, step) && !step.Insert? && (step.worker in s.workers ==> Grounded(s.rows, s.workers[step.worker]))
    ensures Grounded(Apply(s, step).rows, Apply(s, step).workers[step.worker])
  {
    hide Blank, Unlocked, CloneLinks, ClonePackage, CloneSrpm, SetColumns, CopiesSrpm;
  }

  lemma {:induction false} StepKeepsGrounded(s: State, step: Step)
    requires AllGrounded(s) && Enabled(s, step)
    ensures AllGrounded(Apply(s, step))
  {
    hide Apply, Enabled;
    IdsOnlyGrow(s, step);
    StepMovesOne(s, step);
    if !step.Insert? {
      MovedIsGrounded(s, step);
    }
  }

  // ---- Row locks ----

  predicate Holds(worker: Worker, id: Id) {
    (worker.pc.Swapped? || worker.pc.Cloning?) && worker.target == id
  }

  /** Only a worker whose next statement commits holds a row lock. */
  ghost predicate LocksHeld(s: State) {
    forall id | id in s.locks :: s.locks[id] in s.workers && Holds(s.workers[s.locks[id]], id)
  }

  lemma {:induction false} LockStaysHeld(s: State, step: Step, id: Id)
    requires LocksHeld(s) && Enabled(s, step) && id in Apply(s, step).locks
    ensures var s' := Apply(s, step); s'.locks[id] in s'.workers && Holds(s'.workers[s'.locks[id]], id)
  {
    hide Blank, ClonePackage, CloneLinks, CloneSrpm, SetColumns, CopiesSrpm;
  }

  lemma {:induction false} StepKeepsLocksHeld(s: State, step: Step)
    requires LocksHeld(s) && Enabled(s, step)
    ensures LocksHeld(Apply(s, step))
  {
    hide Apply, Enabled, Holds;
    forall id | id in Apply(s, step).locks
      ensures var s' := Apply(s, step); s'.locks[id] in s'.workers && Holds(s'.workers[s'.locks[id]], id)
    {
      LockStaysHeld(s, step, id);
    }
  }

  /** A statement releases nobody else's lock. */
  lemma {:induction false} LocksOfOthersStay(s: State, step: Step, id: Id)
    requires Enabled(s, step) && id in s.locks && (step.Insert? || s.locks[id] != step.worker)
    ensures id in Apply(s, step).locks && Apply(s, step).locks[id] == s.locks[id]
  {
    hide Blank, CloneLinks, ClonePackage, CloneSrpm, SetColumns, CopiesSrpm;
  }

  // ---- All of it ----

  ghost predicate Regular(s: State) {
    AllDrawn(s) && AllPlaced(s) && AllGrounded(s) && LocksHeld(s)
  }

  /** What this says of one worker. */
  lemma WorkerIsRegular(s: State, w: Id)
    requires Regular(s) && w in s.workers
    ensures WorkerDrawn(s.workers[w], s.nextRow, s.nextGroup) && Placed(s.workers[w]) && Grounded(s.rows, s.workers[w])
    ensures !Over(s.workers[w]) && s.workers[w].kind != Srpm && s.workers[w].kind != SyncRelease ==>
              s.workers[w].target in Targets(s.workers[w]) && s.workers[w].target < s.nextRow
  {
  }

  lemma RegularlyApart(s: State, v: Id, w: Id)
    requires Regular(s) && v in s.workers && w in s.workers && v != w
    ensures Apart(s.workers[v], s.workers[w])
  {
  }

  lemma RowsAreDrawn(s: State)
    requires Regular(s)
    ensures forall id | id in s.rows :: id < s.nextRow
    ensures PairwiseApart(s.workers)
  {
  }

  lemma {:induction false} StepIsRegular(s: State, step: Step)
    requires Regular(s) && Enabled(s, step)
    ensures Regular(Apply(s, step))
  {
    hide AllDrawn, AllPlaced, AllGrounded, LocksHeld, Apply, Enabled;
    StepKeepsDrawn(s, step);
    StepKeepsPlaced(s, step);
    StepKeepsGrounded(s, step);
    StepKeepsLocksHeld(s, step);
  }

  lemma QuietIsRegular(s: State)
    requires Quiet(s)
    ensures Regular(s)
  {
  }

  lemma {:induction false} RunIsRegular(s: State, steps: seq<Step>)
    requires Regular(s) && Runs(s, steps)
    ensures Regular(Execute(s, steps))
    decreases |steps|
  {
    hide Regular, Apply, Enabled;
    if steps != [] {
      StepIsRegular(s, steps[0]);
      RunIsRegular(Apply(s, steps[0]), steps[1..]);
    }
  }

  // ---- What a row lock is for ----

  /** A call that has updated its row but not committed holds the lock of that row. */
  ghost predicate UpdatedAreLocked(s: State) {
    forall w | w in s.workers && s.workers[w].pc.Swapped? ::
      s.workers[w].target in s.locks && s.locks[s.workers[w].target] == w
  }

  lemma {:induction false} StepKeepsUpdatedLocked(s: State, step: Step)
    requires UpdatedAreLocked(s) && Enabled(s, step)
    ensures UpdatedAreLocked(Apply(s, step))
  {
    hide Apply, Enabled;
    var s' := Apply(s, step);
    StepMovesOne(s, step);
    forall w | w in s'.workers && s'.workers[w].pc.Swapped?
      ensures s'.workers[w].target in s'.locks && s'.locks[s'.workers[w].target] == w
    {
      if !step.Insert? && step.worker == w {
        UpdatingLocks(s, step);
      } else {
        LocksOfOthersStay(s, step, s.workers[w].target);
      }
    }
  }

  lemma {:induction false} UpdatingLocks(s: State, step: Step)
    requires Enabled(s, step) && !step.Insert?
    requires step.worker in Apply(s, step).workers && Apply(s, step).workers[step.worker].pc.Swapped?
    ensures var s', w := Apply(s, step), step.worker; s'.workers[w].target in s'.locks && s'.locks[s'.workers[w].target] == w
  {
    hide Blank, CloneLinks, ClonePackage, CloneSrpm, SetColumns, CopiesSrpm;
  }

  lemma {:induction false} RunKeepsUpdatedLocked(s: State, steps: seq<Step>)
    requires UpdatedAreLocked(s) && Runs(s, steps)
    ensures UpdatedAreLocked(Execute(s, steps))
    decreases |steps|
  {
    hide UpdatedAreLocked, Apply, Enabled;
    if steps != [] {
      StepKeepsUpdatedLocked(s, steps[0]);
      RunKeepsUpdatedLocked(Apply(s, steps[0]), steps[1..]);
    }
  }

  lemma {:induction false} StepWaitsForLocks(s: State, step: Step, id: Id)
    requires UpdatedAreLocked(s) && Enabled(s, step)
    requires id in s.rows && id < s.nextRow && id in s.locks && (step.Insert? || step.worker != s.locks[id])
    ensures id in Apply(s, step).rows && Apply(s, step).rows[id] == s.rows[id]
  {
    hide Blank, CloneLinks, ClonePackage, CloneSrpm, SetColumns, CopiesSrpm, Unlocked;
  }

  /** In every run of all creators, while a call holds the lock of a row nobody else writes the row or takes the lock. */
  lemma {:induction false} LockedRowsAreLeftAlone(s: State, steps: seq<Step>, step: Step, id: Id)
    requires Quiet(s) && Runs(s, steps) && Enabled(Execute(s, steps), step)
    requires var mid := Execute(s, steps); id in mid.rows && id in mid.locks && (step.Insert? || step.worker != mid.locks[id])
    ensures var mid, s' := Execute(s, steps), Apply(Execute(s, steps), step);
            && id in s'.rows && s'.rows[id] == mid.rows[id]
            && id in s'.locks && s'.locks[id] == mid.locks[id]
  {
    hide Regular, Apply, Enabled, Execute, Runs;
    QuietIsRegular(s);
    RunIsRegular(s, steps);
    RowsAreDrawn(Execute(s, steps));
    RunKeepsUpdatedLocked(s, steps);
    LocksOfOthersStay(Execute(s, steps), step, id);
    StepWaitsForLocks(Execute(s, steps), step, id);
  }
}
