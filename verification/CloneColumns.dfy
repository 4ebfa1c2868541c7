/**
What the clones of the creators are made of, column by column: the event and the package for
every call that has returned one, in every run; and the SRPM and the links, statement by statement.
*/
module CloneColumns {
  import opened Options
  import opened PipelineCreation
  import opened CreationInvariants

  // ---- Event and package ----

  /** Rows keep their event and their package for good. */
  lemma {:induction false} StepKeepsEventAndPackage(s: State, step: Step, id: Id)
    requires Enabled(s, step) && id in s.rows && id < s.nextRow
    ensures id in Apply(s, step).rows
    ensures Apply(s, step).rows[id].event == s.rows[id].event && Apply(s, step).rows[id].package == s.rows[id].package
  {
    hide Blank, Unlocked, CloneLinks, ClonePackage, CloneSrpm, Guarded, CopiesSrpm;
  }

  /** `made` has the event of `source`, and the package of the caller, of its model or of `source`, in this order. */
  predicate MadeFrom(made: Row, source: Row, worker: Worker) {
    && made.event == source.event
    && made.package ==
       if worker.kind != Copr then source.package
       else if worker.package.Some? && worker.package.value != "" then worker.package
       else if worker.memory.Some? && worker.memory.value != "" then worker.memory
       else source.package
  }

  /** The clone that a worker still fills or has returned is made from its target. */
  predicate Traced(rows: map<Id, Row>, worker: Worker) {
    match worker.pc
    case Cloning(source) =>
      && worker.target in rows
      && source.event == rows[worker.target].event && source.package == rows[worker.target].package
    case ReadingBack(clone) => TracedClone(rows, worker, clone)
    case Filling(clone, _, _) => TracedClone(rows, worker, clone)
    case Finished(result) => result.Some? ==> TracedClone(rows, worker, result.value)
    case _ => true
  }

  predicate TracedClone(rows: map<Id, Row>, worker: Worker, clone: Id) {
    && worker.target in rows && clone in rows
    && (clone == worker.target || MadeFrom(rows[clone], rows[worker.target], worker))
  }

  ghost predicate AllTraced(s: State) {
    forall w | w in s.workers :: Traced(s.rows, s.workers[w])
  }

  lemma WorkerIsTraced(s: State, w: Id)
    requires AllTraced(s) && w in s.workers
    ensures Traced(s.rows, s.workers[w])
  {
  }

  lemma {:induction false} OtherStaysTraced(s: State, step: Step, worker: Worker)
    requires Regular(s) && Enabled(s, step) && Traced(s.rows, worker)
    ensures Traced(Apply(s, step).rows, worker)
  {
    hide Regular, Apply, Enabled, MadeFrom;
    RowsAreDrawn(s);
    forall id | id in s.rows
      ensures id in Apply(s, step).rows
      ensures Apply(s, step).rows[id].event == s.rows[id].event && Apply(s, step).rows[id].package == s.rows[id].package
    {
      StepKeepsEventAndPackage(s, step, id);
    }
    forall made, source | made in s.rows && source in s.rows && MadeFrom(s.rows[made], s.rows[source], worker)
      ensures MadeFrom(Apply(s, step).rows[made], Apply(s, step).rows[source], worker)
    {
      SameColumnsAreMade(s.rows[made], s.rows[source], Apply(s, step).rows[made], Apply(s, step).rows[source], worker);
    }
  }

  lemma SameColumnsAreMade(made: Row, source: Row, made': Row, source': Row, worker: Worker)
    requires MadeFrom(made, source, worker)
    requires made'.event == made.event && made'.package == made.package
    requires source'.event == source.event && source'.package == source.package
    ensures MadeFrom(made', source', worker)
  {
  }

  /** The statement that inserts a clone takes event and package from the row as it was read. */
  lemma {:induction false} CloningIsTraced(s: State, w: Id)
    requires Regular(s) && w in s.workers && s.workers[w].pc.Cloning? && Traced(s.rows, s.workers[w])
    ensures Traced(ApplyClone(s, w).rows, ApplyClone(s, w).workers[w])
  {
    hide Regular, Unlocked, CloneLinks, CloneSrpm, Placed, Grounded;
    RowsAreDrawn(s);
  }

  lemma {:induction false} FillingIsTraced(s: State, w: Id)
    requires Regular(s) && CanFill(s, w) && Traced(s.rows, s.workers[w])
    ensures Traced(ApplyFill(s, w).rows, ApplyFill(s, w).workers[w])
  {
    hide Regular, Placed, Grounded;
    WorkerIsRegular(s, w);
    RowsAreDrawn(s);
    FillKeepsEventAndPackage(s, w);
    hide SetColumns;
  }

  lemma FillKeepsEventAndPackage(s: State, w: Id)
    requires CanFill(s, w)
    ensures forall id | id in s.rows ::
              && id in ApplyFill(s, w).rows && ApplyFill(s, w).rows[id].event == s.rows[id].event
              && ApplyFill(s, w).rows[id].package == s.rows[id].package
  {
  }

  lemma {:induction false} MovedIsTraced(s: State, step: Step)
    requires Regular(s) && AllTraced(s) && Enabled(s, step) && !step.Insert?
    ensures Traced(Apply(s, step).rows, Apply(s, step).workers[step.worker])
  {
    hide Regular, AllTraced, ApplyClone, ApplyFill, CloneLinks, CloneSrpm, Unlocked, Placed;
    if step.worker in s.workers {
      WorkerIsTraced(s, step.worker);
      WorkerIsRegular(s, step.worker);
    }
    match step
    case Clone(w) => CloningIsTraced(s, w);
    case Fill(w) => FillingIsTraced(s, w);
    case _ =>
  }

  lemma {:induction false} StepKeepsTraced(s: State, step: Step)
    requires Regular(s) && AllTraced(s) && Enabled(s, step)
    ensures AllTraced(Apply(s, step))
  {
    hide Regular, Apply, Enabled, Traced;
    var s' := Apply(s, step);
    StepMovesOne(s, step);
    forall w | w in s'.workers ensures Traced(s'.rows, s'.workers[w]) {
      if !step.Insert? && w == step.worker {
        MovedIsTraced(s, step);
      } else {
        OtherStaysTraced(s, step, s.workers[w]);
      }
    }
  }

  lemma {:induction false} RunKeepsTraced(s: State, steps: seq<Step>)
    requires Regular(s) && AllTraced(s) && Runs(s, steps)
    ensures AllTraced(Execute(s, steps))
    decreases |steps|
  {
    hide Regular, AllTraced, Apply, Enabled;
    if steps != [] {
      StepIsRegular(s, steps[0]);
      StepKeepsTraced(s, steps[0]);
      RunKeepsTraced(Apply(s, steps[0]), steps[1..]);
    }
  }

  /**
  In every run: a call that has returned a clone has given it the event of the pipeline it was
  called for; and the package of that pipeline, unless it is a Copr call that was given one, or
  whose model knew one.
  */
  lemma {:induction false} ReturnedCloneIsMadeFromItsPipeline(s: State, steps: seq<Step>, w: Id, clone: Id)
    requires Quiet(s) && Runs(s, steps)
    requires w in Execute(s, steps).workers && Execute(s, steps).workers[w].pc == Finished(Some(clone))
    requires clone != Execute(s, steps).workers[w].target
    ensures var end := Execute(s, steps);
            var worker := end.workers[w];
            && worker.target in end.rows && clone in end.rows
            && var source, made := end.rows[worker.target], end.rows[clone];
               && made.event == source.event
               && (worker.kind != Copr ==> made.package == source.package)
               && (worker.kind == Copr ==>
                     if worker.package.Some? && worker.package.value != "" then made.package == worker.package
                     else if worker.memory.Some? && worker.memory.value != "" then made.package == worker.memory
                     else made.package == source.package)
  {
    hide Regular, Quiet, AllTraced, Runs, Execute;
    QuietIsRegular(s);
    QuietIsTraced(s);
    RunKeepsTraced(s, steps);
    WorkerIsTraced(Execute(s, steps), w);
  }

  lemma QuietIsTraced(s: State)
    requires Quiet(s)
    ensures AllTraced(s)
  {
  }

  // ---- SRPM and links ----

  /** What a creator is about to write into its clone, read from the pipeline after the clone was published. */
  lemma ReadBackTakes(s: State, w: Id)
    requires CanReadBack(s, w)
    ensures var worker, source, s' := s.workers[w], s.rows[s.workers[w].target], ApplyReadBack(s, w);
            && s'.workers[w].pc.Filling? && s'.workers[w].pc.clone == worker.pc.clone && s'.rows == s.rows
            && s'.workers[w].pc.srpm == (if worker.kind == Bodhi then None else source.srpm)
            && var links := s'.workers[w].pc.links;
               && worker.kind in links && links[worker.kind] == worker.group
               && (forall k | k != worker.kind :: k in links <==>
                     && k in source.links
                     && (|| (k == Copr && worker.kind in {TestRun, LogDetective, VmImage})
                         || (k == Koji && worker.kind in {TestRun, LogDetective})))
               && (forall k | k in links && k != worker.kind :: links[k] == source.links[k])
  {
  }

  /** The fill writes just that into the clone and ends the call, or takes it to its next pipeline. */
  lemma FillWrites(s: State, w: Id)
    requires CanFill(s, w)
    ensures var worker, s' := s.workers[w], ApplyFill(s, w);
            && worker.pc.clone in s'.rows && s'.rows.Keys == s.rows.Keys
            && (forall id | id in s.rows && id != worker.pc.clone :: s'.rows[id] == s.rows[id])
            && (var before, after := s.rows[worker.pc.clone], s'.rows[worker.pc.clone];
                && after.event == before.event && after.package == before.package
                && after.srpm == (if worker.pc.srpm.Some? then worker.pc.srpm else before.srpm)
                && (forall k :: k in after.links <==> k in before.links || k in worker.pc.links)
                && (forall k | k in after.links ::
                      after.links[k] == if k in worker.pc.links then worker.pc.links[k] else before.links[k]))
            && (worker.rest == [] ==> s'.workers[w].pc == Finished(Some(worker.pc.clone)))
            && (worker.rest != [] ==>
                  && s'.workers[w].pc == Reading
                  && s'.workers[w].target == worker.rest[0] && s'.workers[w].rest == worker.rest[1..])
  {
  }

  /** The clone of a test-run call is inserted complete: a copy of the locked pipeline with the call's own group. */
  lemma TestRunCloneTakes(s: State, w: Id)
    requires w in s.workers && s.workers[w].pc.Cloning? && s.workers[w].kind == TestRun
    ensures var worker, source, s' := s.workers[w], s.workers[w].pc.source, ApplyClone(s, w);
            && s.nextRow in s'.rows && s'.workers[w].pc == Finished(Some(s.nextRow))
            && var made := s'.rows[s.nextRow];
               && made.event == source.event && made.package == source.package && made.srpm == source.srpm
               && (forall k :: k in made.links <==> k == TestRun || ((k == Copr || k == Koji) && k in source.links))
               && made.links[TestRun] == worker.group
               && (Copr in source.links ==> made.links[Copr] == source.links[Copr])
               && (Koji in source.links ==> made.links[Koji] == source.links[Koji])
  {
  }

  /** An assignment or a committed update sets the one link of the call's pipeline, and nothing else. */
  lemma LinkingWrites(s: State, step: Step)
    requires Enabled(s, step) && (step.Assign? || step.CommitSwap?)
    ensures var worker, s' := s.workers[step.worker], Apply(s, step);
            && worker.target in s'.rows && s'.rows.Keys == s.rows.Keys
            && (forall id | id in s.rows && id != worker.target :: s'.rows[id] == s.rows[id])
            && s'.rows[worker.target] == s.rows[worker.target].(links := s.rows[worker.target].links[worker.kind := worker.group])
            && (worker.kind, worker.group) in s'.groups
  {
  }

  /** A call that makes its own pipeline: after its two commits the pipeline has the new record, and nothing else. */
  lemma NewRunMakesItsPipeline(s: State, w: Id, kind: Kind, event: Id, package: Option<string>) returns (s2: State)
    requires w !in s.workers && (kind == Srpm || kind == SyncRelease) && s.nextRow !in s.locks
    ensures Enabled(s, BeginNewRun(w, kind, event, package))
    ensures var s1 := Apply(s, BeginNewRun(w, kind, event, package)); Enabled(s1, Fill(w)) && s2 == Apply(s1, Fill(w))
    ensures w in s2.workers && s2.workers[w].pc == Finished(Some(s.nextRow)) && s.nextRow in s2.rows
    ensures s2.rows[s.nextRow] == if kind == Srpm then Row(event, package, Some(s.nextGroup), map[])
                                  else Row(event, package, None, map[SyncRelease := s.nextGroup])
    ensures (kind, s.nextGroup) in s2.groups
  {
    var s1 := Apply(s, BeginNewRun(w, kind, event, package));
    s2 := Apply(s1, Fill(w));
    assert map[] + map[kind := s.nextGroup] == map[kind := s.nextGroup];
  }

  // ---- What may happen at any time ----

  /** Pipelines come up, calls begin on any drawn pipelines, and any call under way may raise. */
  lemma OthersAreFree(s: State, w: Id)
    ensures forall event, package :: Enabled(s, Insert(event, package))
    ensures w !in s.workers ==> forall event, package ::
              Enabled(s, BeginNewRun(w, Srpm, event, package)) && Enabled(s, BeginNewRun(w, SyncRelease, event, package))
    ensures w !in s.workers ==> forall kind: Kind, target: Id, package, memory |
              kind != Srpm && kind != SyncRelease && target < s.nextRow ::
                Enabled(s, Begin(w, kind, [target], package, memory))
    ensures w !in s.workers ==> forall targets: seq<Id>, package, memory | (forall t | t in targets :: t < s.nextRow) ::
              Enabled(s, Begin(w, LogDetective, targets, package, memory))
    ensures w in s.workers && !s.workers[w].pc.Finished? && !s.workers[w].pc.Failed? ==> Enabled(s, Abort(w))
    ensures w in s.workers && s.workers[w].pc.Reading? ==>
              && Enabled(s, Read(w, false))
              && (Enabled(s, Read(w, true)) <==>
                  s.workers[w].target in s.rows && s.workers[w].kind in s.rows[s.workers[w].target].links)
  {
  }

  /** A call for no pipeline at all leaves its group and returns nothing. */
  lemma EmptyCallLeavesItsGroup(s: State, w: Id, package: Option<string>, memory: Option<string>)
    requires w !in s.workers
    ensures Enabled(s, Begin(w, LogDetective, [], package, memory))
    ensures var s' := Apply(s, Begin(w, LogDetective, [], package, memory));
            && s'.rows == s.rows && s'.groups == s.groups + {(LogDetective, s.nextGroup)}
            && w in s'.workers && s'.workers[w].pc == Finished(None) && s'.nextGroup == s.nextGroup + 1
  {
  }
}
