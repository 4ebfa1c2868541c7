/**
The guarded creators, Copr and Testing Farm, in every interleaving with every other creator: a
link that one of them has set is never overwritten, and no two of their calls return the same
pipeline.  Test-run calls need nothing for it.  Copr calls may not be started on a clone that
another call still has to fill.
*/
module GuardedLinks {
  import opened Options
  import opened PipelineCreation
  import opened CreationInvariants

  // ---- Calls and clones ----

  /** `a` does not fill a row that the call `b`, if it is of one of these kinds, reads or updates. */
  predicate ClearOf(a: Worker, b: Worker, kinds: set<Kind>) {
    b.kind in kinds ==> forall t | t in Targets(b) :: Unfilled(a) != Some(t)
  }

  ghost predicate Clear(workers: map<Id, Worker>, kinds: set<Kind>) {
    forall v, w | v in workers && w in workers :: ClearOf(workers[v], workers[w], kinds)
  }

  lemma TargetsAreClear(workers: map<Id, Worker>, kinds: set<Kind>, v: Id, w: Id)
    requires Clear(workers, kinds) && v in workers && w in workers
    ensures ClearOf(workers[v], workers[w], kinds)
  {
  }

  lemma {:induction false} NewcomerIsClear(s: State, kinds: set<Kind>, step: Step, v: Id)
    requires Regular(s) && Enabled(s, step) && StartsSettled(s, step, kinds)
    requires (step.Begin? || step.BeginNewRun?) && v in s.workers
    ensures var newcomer := Apply(s, step).workers[step.worker];
            && ClearOf(newcomer, s.workers[v], kinds) && ClearOf(s.workers[v], newcomer, kinds)
            && ClearOf(newcomer, newcomer, kinds)
  {
    hide Regular, Apply, Enabled, Placed, Grounded;
    WorkerIsRegular(s, v);
    Newcomer(s, step);
    hide Unfilled, Targets;
  }

  lemma NewcomerAloneIsClear(s: State, kinds: set<Kind>, step: Step)
    requires Enabled(s, step) && (step.Begin? || step.BeginNewRun?)
    ensures var newcomer := Apply(s, step).workers[step.worker]; ClearOf(newcomer, newcomer, kinds)
  {
    hide Apply, Enabled, Targets;
    Newcomer(s, step);
  }

  lemma {:induction false} MovedIsClear(s: State, kinds: set<Kind>, step: Step, v: Id)
    requires Regular(s) && Clear(s.workers, kinds) && Enabled(s, step) && !step.Insert?
    requires step.worker in s.workers && v in s.workers
    ensures var moved := Apply(s, step).workers[step.worker];
            && ClearOf(moved, s.workers[v], kinds) && ClearOf(s.workers[v], moved, kinds) && ClearOf(moved, moved, kinds)
  {
    hide Regular, Apply, Enabled, Placed, Grounded;
    StepMovesOn(s, step);
    WorkerIsRegular(s, v);
    WorkerIsRegular(s, step.worker);
    TargetsAreClear(s.workers, kinds, v, step.worker);
    TargetsAreClear(s.workers, kinds, step.worker, v);
    TargetsAreClear(s.workers, kinds, step.worker, step.worker);
    hide Unfilled, Targets, Clear;
  }

  /** Calls of these kinds work on no clone that is being filled, if none is started on one. */
  lemma {:induction false} StepKeepsClear(s: State, kinds: set<Kind>, step: Step)
    requires Regular(s) && Clear(s.workers, kinds) && Enabled(s, step) && StartsSettled(s, step, kinds)
    ensures Clear(Apply(s, step).workers, kinds)
  {
    hide Regular, Apply, Enabled, ClearOf, StartsSettled;
    StepMovesOne(s, step);
    if !step.Insert? {
      if step.worker in s.workers {
        MovedIsClear(s, kinds, step, step.worker);
      } else {
        NewcomersBegin(s, step);
        NewcomerAloneIsClear(s, kinds, step);
      }
      forall v | v in s.workers && v != step.worker
        ensures var moved := Apply(s, step).workers[step.worker];
                ClearOf(moved, s.workers[v], kinds) && ClearOf(s.workers[v], moved, kinds)
      {
        if step.worker in s.workers {
          MovedIsClear(s, kinds, step, v);
        } else {
          NewcomerIsClear(s, kinds, step, v);
        }
      }
    }
  }

  // ---- Links of one guarded kind ----

  /** No clone has a Copr link before it is filled. */
  ghost predicate ClonesUnlinked(s: State) {
    forall w | w in s.workers && Unfilled(s.workers[w]).Some? :: LinkOf(s.rows, Unfilled(s.workers[w]).value, Copr) == None
  }

  /** Between its update and its commit a call holds the lock of a row without the link; afterwards the row is linked. */
  predicate Secured(s: State, w: Id)
    requires w in s.workers
  {
    var worker := s.workers[w];
    && (worker.pc.Swapped? ==>
          && worker.target in s.locks && s.locks[worker.target] == w
          && worker.target in s.rows && LinkOf(s.rows, worker.target, worker.kind) == None)
    && (worker.pc.Finished? && worker.pc.result.Some? ==>
          LinkOf(s.rows, worker.pc.result.value, worker.kind) == Some(worker.group))
  }

  ghost predicate AllSecured(s: State, kind: Kind) {
    forall w | w in s.workers && s.workers[w].kind == kind :: Secured(s, w)
  }

  ghost predicate LinksAreSafe(s: State, kind: Kind) {
    && AllSecured(s, kind)
    && (kind == Copr ==> Clear(s.workers, {Copr}) && ClonesUnlinked(s))
  }

  lemma CallIsSecured(s: State, kind: Kind, w: Id)
    requires LinksAreSafe(s, kind) && w in s.workers && s.workers[w].kind == kind
    ensures Secured(s, w)
  {
  }

  lemma CloneIsUnlinked(s: State, w: Id)
    requires LinksAreSafe(s, Copr) && w in s.workers && Unfilled(s.workers[w]).Some?
    ensures LinkOf(s.rows, Unfilled(s.workers[w]).value, Copr) == None
  {
  }

  lemma CallsAreClear(s: State, v: Id, w: Id)
    requires LinksAreSafe(s, Copr) && v in s.workers && w in s.workers
    ensures ClearOf(s.workers[v], s.workers[w], {Copr})
  {
  }

  /** The statement may change this link: it commits an update of it, or fills a Copr link into its clone. */
  predicate Writes(s: State, step: Step, kind: Kind, id: Id) {
    || (step.CommitSwap? && step.worker in s.workers && s.workers[step.worker].pc.Swapped?
        && s.workers[step.worker].kind == kind && s.workers[step.worker].target == id)
    || (step.Fill? && step.worker in s.workers && kind == Copr && Unfilled(s.workers[step.worker]) == Some(id))
  }

  lemma {:induction false} StepWritesLink(s: State, step: Step, kind: Kind, id: Id)
    requires Regular(s) && Enabled(s, step) && Guarded(kind) && id < s.nextRow
    ensures LinkOf(Apply(s, step).rows, id, kind) == LinkOf(s.rows, id, kind) || Writes(s, step, kind, id)
  {
    hide Regular, Blank, CloneLinks, ClonePackage, CloneSrpm, CopiesSrpm, Unlocked, Grounded;
    if !step.Insert? && step.worker in s.workers {
      WorkerIsRegular(s, step.worker);
    }
  }

  /** A link that is set stays as it is. */
  lemma {:induction false} StepKeepsLink(s: State, step: Step, kind: Kind, id: Id)
    requires Regular(s) && LinksAreSafe(s, kind) && Enabled(s, step) && Guarded(kind)
    requires LinkOf(s.rows, id, kind).Some?
    ensures LinkOf(Apply(s, step).rows, id, kind) == LinkOf(s.rows, id, kind)
  {
    hide Regular, LinksAreSafe, Apply, Enabled;
    RowsAreDrawn(s);
    StepWritesLink(s, step, kind, id);
    if step.CommitSwap? && Writes(s, step, kind, id) {
      CallIsSecured(s, kind, step.worker);
    }
    if step.Fill? && Writes(s, step, kind, id) {
      CloneIsUnlinked(s, step.worker);
    }
  }

  /** Nobody else sets the link of a row that a call has updated but not committed. */
  lemma {:induction false} UpdatedRowWaits(s: State, step: Step, v: Id)
    requires Regular(s) && v in s.workers && Guarded(s.workers[v].kind) && LinksAreSafe(s, s.workers[v].kind)
    requires Enabled(s, step) && (step.Insert? || step.worker != v) && s.workers[v].pc.Swapped?
    ensures LinkOf(Apply(s, step).rows, s.workers[v].target, s.workers[v].kind) == None
  {
    hide Regular, LinksAreSafe, Apply, Enabled, Placed, Grounded;
    var worker := s.workers[v];
    CallIsSecured(s, worker.kind, v);
    WorkerIsRegular(s, v);
    StepWritesLink(s, step, worker.kind, worker.target);
    if Writes(s, step, worker.kind, worker.target) {
      if step.CommitSwap? {
        CallIsSecured(s, worker.kind, step.worker);
      } else {
        CallsAreClear(s, step.worker, v);
      }
    }
  }

  lemma {:induction false} OtherStaysSecured(s: State, step: Step, v: Id)
    requires Regular(s) && v in s.workers && Guarded(s.workers[v].kind) && LinksAreSafe(s, s.workers[v].kind)
    requires Enabled(s, step) && (step.Insert? || step.worker != v)
    ensures v in Apply(s, step).workers && Apply(s, step).workers[v] == s.workers[v] && Secured(Apply(s, step), v)
  {
    hide Regular, LinksAreSafe, Apply, Enabled, LinkOf;
    var worker := s.workers[v];
    CallIsSecured(s, worker.kind, v);
    StepMovesOne(s, step);
    if worker.pc.Swapped? {
      LocksOfOthersStay(s, step, worker.target);
      IdsOnlyGrow(s, step);
      UpdatedRowWaits(s, step, v);
    }
    if worker.pc.Finished? && worker.pc.result.Some? {
      StepKeepsLink(s, step, worker.kind, worker.pc.result.value);
    }
  }

  lemma {:induction false} MovedIsSecured(s: State, step: Step)
    requires Regular(s) && Enabled(s, step) && !step.Insert? && Guarded(Apply(s, step).workers[step.worker].kind)
    ensures Secured(Apply(s, step), step.worker)
  {
    hide Regular, Blank, ClonePackage, CloneSrpm, CopiesSrpm, Grounded;
    if step.worker in s.workers {
      WorkerIsRegular(s, step.worker);
    }
  }

  lemma {:induction false} StepKeepsSecured(s: State, step: Step, kind: Kind)
    requires Regular(s) && LinksAreSafe(s, kind) && Enabled(s, step) && Guarded(kind)
    ensures AllSecured(Apply(s, step), kind)
  {
    hide Regular, LinksAreSafe, Secured, Apply, Enabled;
    var s' := Apply(s, step);
    StepMovesOne(s, step);
    forall v | v in s'.workers && s'.workers[v].kind == kind ensures Secured(s', v) {
      if !step.Insert? && step.worker == v {
        MovedIsSecured(s, step);
      } else {
        OtherStaysSecured(s, step, v);
      }
    }
  }

  /** A clone gets its Copr link from nobody but the call that fills it. */
  lemma {:induction false} OtherCloneStaysUnlinked(s: State, step: Step, v: Id)
    requires Regular(s) && LinksAreSafe(s, Copr) && Enabled(s, step) && v in s.workers && Unfilled(s.workers[v]).Some?
    requires step.Insert? || step.worker != v
    ensures LinkOf(Apply(s, step).rows, Unfilled(s.workers[v]).value, Copr) == None
  {
    hide Regular, LinksAreSafe, Apply, Enabled, Placed, Grounded;
    var clone := Unfilled(s.workers[v]).value;
    WorkerIsRegular(s, v);
    CloneIsUnlinked(s, v);
    StepWritesLink(s, step, Copr, clone);
    if Writes(s, step, Copr, clone) {
      CallsAreClear(s, v, step.worker);
      RegularlyApart(s, v, step.worker);
    }
  }

  lemma {:induction false} OwnCloneIsUnlinked(s: State, step: Step)
    requires Regular(s) && LinksAreSafe(s, Copr) && Enabled(s, step) && !step.Insert?
    ensures var s' := Apply(s, step);
            Unfilled(s'.workers[step.worker]).Some? ==> LinkOf(s'.rows, Unfilled(s'.workers[step.worker]).value, Copr) == None
  {
    hide Regular, LinksAreSafe, ClonePackage, CloneSrpm, CloneLinks, CopiesSrpm, Unlocked;
    if step.worker in s.workers && Unfilled(s.workers[step.worker]).Some? {
      CloneIsUnlinked(s, step.worker);
    }
  }

  lemma {:induction false} ClonesStayUnlinked(s: State, step: Step)
    requires Regular(s) && LinksAreSafe(s, Copr) && Enabled(s, step)
    ensures ClonesUnlinked(Apply(s, step))
  {
    hide Regular, LinksAreSafe, Apply, Enabled, LinkOf, Unfilled;
    var s' := Apply(s, step);
    StepMovesOne(s, step);
    forall v | v in s'.workers && Unfilled(s'.workers[v]).Some?
      ensures LinkOf(s'.rows, Unfilled(s'.workers[v]).value, Copr) == None
    {
      if !step.Insert? && step.worker == v {
        OwnCloneIsUnlinked(s, step);
      } else {
        OtherCloneStaysUnlinked(s, step, v);
      }
    }
  }

  lemma {:induction false} StepKeepsLinksSafe(s: State, step: Step, kind: Kind)
    requires Regular(s) && LinksAreSafe(s, kind) && Enabled(s, step) && Guarded(kind)
    requires kind == Copr ==> StartsSettled(s, step, {Copr})
    ensures LinksAreSafe(Apply(s, step), kind)
  {
    StepKeepsSecured(s, step, kind);
    if kind == Copr {
      StepKeepsClear(s, {Copr}, step);
      ClonesStayUnlinked(s, step);
    }
    hide Regular, AllSecured, Clear, ClonesUnlinked, Apply, Enabled, StartsSettled;
  }

  /** No link of this kind is replaced or cleared. */
  ghost predicate KeepsLinks(rows: map<Id, Row>, rows': map<Id, Row>, kind: Kind) {
    forall id | LinkOf(rows, id, kind).Some? :: LinkOf(rows', id, kind) == LinkOf(rows, id, kind)
  }

  lemma {:induction false} StepKeepsLinks(s: State, step: Step, kind: Kind)
    requires Regular(s) && LinksAreSafe(s, kind) && Enabled(s, step) && Guarded(kind)
    ensures KeepsLinks(s.rows, Apply(s, step).rows, kind)
  {
    hide Regular, LinksAreSafe, Apply, Enabled, LinkOf;
    forall id | LinkOf(s.rows, id, kind).Some?
      ensures LinkOf(Apply(s, step).rows, id, kind) == LinkOf(s.rows, id, kind)
    {
      StepKeepsLink(s, step, kind, id);
    }
  }

  lemma {:induction false} RunKeepsLinks(s: State, steps: seq<Step>, kind: Kind)
    requires Regular(s) && LinksAreSafe(s, kind) && Runs(s, steps) && Guarded(kind)
    requires kind == Copr ==> Disciplined(s, steps, {Copr})
    ensures Regular(Execute(s, steps)) && LinksAreSafe(Execute(s, steps), kind)
    ensures KeepsLinks(s.rows, Execute(s, steps).rows, kind)
    decreases |steps|
  {
    hide Regular, LinksAreSafe, Apply, Enabled, StartsSettled, LinkOf;
    if steps != [] {
      StepIsRegular(s, steps[0]);
      StepKeepsLinksSafe(s, steps[0], kind);
      StepKeepsLinks(s, steps[0], kind);
      RunKeepsLinks(Apply(s, steps[0]), steps[1..], kind);
    }
  }

  lemma QuietLinksAreSafe(s: State, kind: Kind)
    requires Quiet(s)
    ensures LinksAreSafe(s, kind)
  {
  }

  /**
  No link of a guarded creator is ever overwritten, whatever else runs in between: a test-run link
  in every run, a Copr link in every run in which no Copr call is started on an unfilled clone.
  */
  lemma {:induction false} GuardedLinksAreNeverOverwritten(s: State, before: seq<Step>, after: seq<Step>, kind: Kind)
    requires Quiet(s) && Guarded(kind) && Runs(s, before) && Runs(Execute(s, before), after)
    requires kind == Copr ==> Disciplined(s, before, {Copr}) && Disciplined(Execute(s, before), after, {Copr})
    ensures KeepsLinks(Execute(s, before).rows, Execute(Execute(s, before), after).rows, kind)
  {
    hide Regular, Quiet, LinksAreSafe, KeepsLinks, Disciplined, Runs, Execute;
    QuietIsRegular(s);
    QuietLinksAreSafe(s, kind);
    RunKeepsLinks(s, before, kind);
    RunKeepsLinks(Execute(s, before), after, kind);
  }

  /** Two calls of one guarded kind never return the same pipeline: at most one takes the original. */
  lemma {:induction false} CallsReturnDistinctPipelines(s: State, steps: seq<Step>, v: Id, w: Id)
    requires Quiet(s) && Runs(s, steps)
    requires var end := Execute(s, steps);
             && v in end.workers && w in end.workers && v != w
             && end.workers[v].kind == end.workers[w].kind && Guarded(end.workers[v].kind)
             && end.workers[v].pc.Finished? && end.workers[v].pc.result.Some? && end.workers[w].pc.Finished?
    requires Execute(s, steps).workers[v].kind == Copr ==> Disciplined(s, steps, {Copr})
    ensures Execute(s, steps).workers[v].pc.result != Execute(s, steps).workers[w].pc.result
  {
    hide Regular, Quiet, LinksAreSafe, Disciplined, Runs, Execute;
    var end := Execute(s, steps);
    var kind := end.workers[v].kind;
    QuietIsRegular(s);
    QuietLinksAreSafe(s, kind);
    RunKeepsLinks(s, steps, kind);
    RegularlyApart(end, v, w);
    CallIsSecured(end, kind, v);
    CallIsSecured(end, kind, w);
  }

  // ---- The group of a Copr call ----

  /** The Copr group that a call is about to copy into its clone. */
  function Carried(worker: Worker): Option<Id> {
    match worker.pc
    case Cloning(source) =>
      if ClonesInOneTransaction(worker.kind) && Copr in source.links then Some(source.links[Copr]) else None
    case Filling(_, _, links) => if worker.kind != Copr && Copr in links then Some(links[Copr]) else None
    case _ => None
  }

  predicate Below(group: Option<Id>, next: Id) {
    group.Some? ==> group.value < next
  }

  /** No pipeline has this Copr group, and nobody is about to copy it. */
  ghost predicate Unused(s: State, group: Id) {
    && (forall id: Id :: LinkOf(s.rows, id, Copr) != Some(group))
    && (forall v | v in s.workers :: Carried(s.workers[v]) != Some(group))
  }

  /** Copr groups are drawn, and those of the calls under way are not in use yet. */
  ghost predicate GroupsWait(s: State) {
    && (forall id: Id :: Below(LinkOf(s.rows, id, Copr), s.nextGroup))
    && (forall v | v in s.workers :: Below(Carried(s.workers[v]), s.nextGroup))
    && (forall w | w in s.workers && s.workers[w].kind == Copr && !Over(s.workers[w]) :: Unused(s, s.workers[w].group))
  }

  /** Where a Copr link comes from: the row had it, its call ends with this statement, or a call copies it. */
  lemma {:induction false} StepLinksCopr(s: State, step: Step, id: Id)
    requires Regular(s) && Enabled(s, step)
    ensures var s' := Apply(s, step);
            var group := LinkOf(s'.rows, id, Copr);
            || group == None || group == LinkOf(s.rows, id, Copr)
            || (&& !step.Insert? && step.worker in s.workers && step.worker in s'.workers
                && (|| group == Carried(s.workers[step.worker])
                    || (s.workers[step.worker].kind == Copr && Over(s'.workers[step.worker])
                        && group == Some(s.workers[step.worker].group))))
  {
    hide Regular, ClonePackage, CloneSrpm, CopiesSrpm, Unlocked, Grounded;
    if !step.Insert? && step.worker in s.workers {
      WorkerIsRegular(s, step.worker);
    }
  }

  /** What a call is about to copy is the Copr group of its pipeline. */
  lemma {:induction false} StepCarries(s: State, step: Step, v: Id)
    requires Enabled(s, step) && v in Apply(s, step).workers
    ensures var group := Carried(Apply(s, step).workers[v]);
            group == None || (v in s.workers && (group == Carried(s.workers[v]) || group == LinkOf(s.rows, s.workers[v].target, Copr)))
  {
    hide Blank, ClonePackage, CloneSrpm, SetColumns, CopiesSrpm, Unlocked;
  }

  /** A group that nobody uses stays so, unless it is that of a Copr call that ends with this statement. */
  lemma {:induction false} StaysUnused(s: State, step: Step, group: Id)
    requires Regular(s) && Unused(s, group) && Enabled(s, step)
    requires (!step.Insert? && step.worker in s.workers && s.workers[step.worker].kind == Copr
              && Over(Apply(s, step).workers[step.worker])) ==> s.workers[step.worker].group != group
    ensures Unused(Apply(s, step), group)
  {
    hide Regular, Apply, Enabled, LinkOf, Carried;
    var s' := Apply(s, step);
    forall id: Id ensures LinkOf(s'.rows, id, Copr) != Some(group) {
      StepLinksCopr(s, step, id);
    }
    forall v | v in s'.workers ensures Carried(s'.workers[v]) != Some(group) {
      StepCarries(s, step, v);
    }
  }

  lemma {:induction false} GroupsStayDrawn(s: State, step: Step)
    requires Regular(s) && GroupsWait(s) && Enabled(s, step)
    ensures forall id: Id :: Below(LinkOf(Apply(s, step).rows, id, Copr), s.nextGroup)
    ensures forall v | v in Apply(s, step).workers :: Below(Carried(Apply(s, step).workers[v]), s.nextGroup)
    ensures s.nextGroup <= Apply(s, step).nextGroup
  {
    hide Regular, Apply, Enabled, LinkOf, Carried, Unused, Placed, Grounded;
    var s' := Apply(s, step);
    IdsOnlyGrow(s, step);
    forall id: Id ensures Below(LinkOf(s'.rows, id, Copr), s.nextGroup) {
      StepLinksCopr(s, step, id);
      if !step.Insert? && step.worker in s.workers {
        WorkerIsRegular(s, step.worker);
      }
    }
    forall v | v in s'.workers ensures Below(Carried(s'.workers[v]), s.nextGroup) {
      StepCarries(s, step, v);
    }
  }

  /** The group of a call under way, seen before the step: unused, or not yet drawn. */
  lemma {:induction false} WaitingGroup(s: State, step: Step, w: Id)
    requires Regular(s) && GroupsWait(s) && Enabled(s, step) && w in Apply(s, step).workers
    requires Apply(s, step).workers[w].kind == Copr && !Over(Apply(s, step).workers[w])
    ensures Unused(s, Apply(s, step).workers[w].group)
    ensures !step.Insert? && step.worker in s.workers && step.worker != w ==>
              s.workers[step.worker].group != Apply(s, step).workers[w].group
  {
    hide Regular, Apply, Enabled, LinkOf, Carried, Placed, Grounded;
    StepMovesOne(s, step);
    if w in s.workers {
      if !step.Insert? && step.worker in s.workers && step.worker != w {
        RegularlyApart(s, step.worker, w);
      }
    } else {
      NewcomersBegin(s, step);
      Newcomer(s, step);
    }
  }

  lemma {:induction false} StepKeepsGroupsWaiting(s: State, step: Step)
    requires Regular(s) && GroupsWait(s) && Enabled(s, step)
    ensures GroupsWait(Apply(s, step))
  {
    hide Regular, Apply, Enabled, LinkOf, Carried, Unused;
    var s' := Apply(s, step);
    GroupsStayDrawn(s, step);
    forall w | w in s'.workers && s'.workers[w].kind == Copr && !Over(s'.workers[w]) ensures Unused(s', s'.workers[w].group) {
      WaitingGroup(s, step, w);
      StaysUnused(s, step, s'.workers[w].group);
    }
  }

  lemma {:induction false} RunKeepsGroupsWaiting(s: State, steps: seq<Step>)
    requires Regular(s) && GroupsWait(s) && Runs(s, steps)
    ensures Regular(Execute(s, steps)) && GroupsWait(Execute(s, steps))
    decreases |steps|
  {
    hide Regular, GroupsWait, Apply, Enabled;
    if steps != [] {
      StepIsRegular(s, steps[0]);
      StepKeepsGroupsWaiting(s, steps[0]);
      RunKeepsGroupsWaiting(Apply(s, steps[0]), steps[1..]);
    }
  }

  /** The step that ends a Copr call links its group, for the first time, to the pipeline that it returns. */
  lemma {:induction false} EndingLinksOnePipeline(s: State, step: Step, id: Id)
    requires Regular(s) && GroupsWait(s) && Enabled(s, step) && (step.CommitSwap? || step.Fill?)
    requires s.workers[step.worker].kind == Copr
    ensures var after := Apply(s, step);
            && after.workers[step.worker].pc.Finished?
            && (LinkOf(after.rows, id, Copr) == Some(s.workers[step.worker].group) <==>
                after.workers[step.worker].pc.result == Some(id))
  {
    hide Regular, GroupsWait, ClonePackage, CloneSrpm, Grounded, Unlocked;
    WorkerIsRegular(s, step.worker);
    assert Unused(s, s.workers[step.worker].group) by {
      GroupIsUnused(s, step.worker);
    }
    assert LinkOf(s.rows, id, Copr) != Some(s.workers[step.worker].group);
  }

  lemma GroupIsUnused(s: State, w: Id)
    requires GroupsWait(s) && w in s.workers && s.workers[w].kind == Copr && !Over(s.workers[w])
    ensures Unused(s, s.workers[w].group)
  {
  }

  lemma QuietGroupsWait(s: State)
    requires Quiet(s)
    ensures GroupsWait(s)
  {
  }

  /** In every run: the moment a Copr call returns, the pipeline it returns is the only one linked to its group. */
  lemma {:induction false} CoprCallReturnsTheOnlyPipeline(s: State, steps: seq<Step>, step: Step, id: Id)
    requires Quiet(s) && Runs(s, steps)
    requires var end := Execute(s, steps);
             && Enabled(end, step) && (step.CommitSwap? || step.Fill?) && end.workers[step.worker].kind == Copr
    ensures var end, after := Execute(s, steps), Apply(Execute(s, steps), step);
            && after.workers[step.worker].pc.Finished?
            && (LinkOf(after.rows, id, Copr) == Some(end.workers[step.worker].group) <==>
                after.workers[step.worker].pc.result == Some(id))
  {
    hide Regular, GroupsWait, Quiet, Runs, Execute, Apply;
    QuietIsRegular(s);
    QuietGroupsWait(s);
    RunKeepsGroupsWaiting(s, steps);
    EndingLinksOnePipeline(Execute(s, steps), step, id);
  }
}
