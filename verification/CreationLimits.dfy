/**
Where the promises of the creating calls end: what happens when a call is started on a clone
that is still being filled; when the unguarded creators keep their links and when they lose them;
and that calls never wait for each other forever.
*/
module CreationLimits {
  import opened Options
  import opened PipelineCreation
  import opened CreationInvariants
  import opened GroupCoherence
  import opened CreateLinearizability

  lemma RunsCons(s: State, step: Step, rest: seq<Step>)
    requires Enabled(s, step) && Runs(Apply(s, step), rest)
    ensures Runs(s, [step] + rest) && Execute(s, [step] + rest) == Execute(Apply(s, step), rest)
  {
  }

  /** A second Copr call on the clone that worker `w` has published but not filled. */
  function Hijack(v: Id, w: Id, clone: Id): seq<Step> {
    [Begin(v, Copr, [clone], None, None)] + ([Read(v, false)] + ([Swap(v)] + ([CommitSwap(v)] + ([Fill(w)] + []))))
  }

  /** Where worker `w` of a Copr call is about to fill its clone, and worker `v` is new. */
  predicate AboutToFill(s: State, v: Id, w: Id, clone: Id) {
    && w in s.workers && s.workers[w].kind == Copr && s.workers[w].rest == []
    && s.workers[w].group < s.nextGroup && v !in s.workers && clone < s.nextRow
    && s.workers[w].pc.Filling? && s.workers[w].pc.clone == clone
    && s.workers[w].pc.links == map[Copr := s.workers[w].group]
    && clone in s.rows && s.rows[clone].links == map[] && clone !in s.locks
  }

  lemma HijackSteps(s: State, v: Id, w: Id, clone: Id) returns (s1: State, s2: State, s3: State, s4: State)
    requires AboutToFill(s, v, w, clone)
    ensures Enabled(s, Begin(v, Copr, [clone], None, None)) && s1 == Apply(s, Begin(v, Copr, [clone], None, None))
    ensures Enabled(s1, Read(v, false)) && s2 == Apply(s1, Read(v, false))
    ensures Enabled(s2, Swap(v)) && s3 == Apply(s2, Swap(v))
    ensures Enabled(s3, CommitSwap(v)) && s4 == Apply(s3, CommitSwap(v))
    ensures v in s4.workers && s4.workers[v].pc == Finished(Some(clone)) && s4.workers[v].group == s.nextGroup
    ensures w in s4.workers && s4.workers[w] == s.workers[w] && clone in s4.rows && clone !in s4.locks
  {
    s1 := Apply(s, Begin(v, Copr, [clone], None, None));
    s2 := Apply(s1, Read(v, false));
    s3 := Apply(s2, Swap(v));
    s4 := Apply(s3, CommitSwap(v));
  }

  /** The state in which the second call has returned the clone and the first has yet to fill it. */
  lemma HijackedState(s: State, v: Id, w: Id, clone: Id) returns (s4: State)
    requires AboutToFill(s, v, w, clone)
    ensures v in s4.workers && s4.workers[v].pc == Finished(Some(clone)) && s4.workers[v].group == s.nextGroup
    ensures w in s4.workers && s4.workers[w] == s.workers[w] && clone in s4.rows && clone !in s4.locks
    ensures Runs(s4, [Fill(w)] + []) ==>
      Runs(s, Hijack(v, w, clone)) && Execute(s, Hijack(v, w, clone)) == Execute(s4, [Fill(w)] + [])
  {
    hide Apply, Enabled;
    var s1, s2, s3;
    s1, s2, s3, s4 := HijackSteps(s, v, w, clone);
    if Runs(s4, [Fill(w)] + []) {
      RunsCons(s3, CommitSwap(v), [Fill(w)] + []);
      RunsCons(s2, Swap(v), [CommitSwap(v)] + ([Fill(w)] + []));
      RunsCons(s1, Read(v, false), [Swap(v)] + ([CommitSwap(v)] + ([Fill(w)] + [])));
      RunsCons(s, Begin(v, Copr, [clone], None, None),
               [Read(v, false)] + ([Swap(v)] + ([CommitSwap(v)] + ([Fill(w)] + []))));
    }
  }

  /**
  Copr links need the discipline, in every state: a Copr call started on a clone that another Copr
  call still has to fill can return that clone, which the other call then returns as well after
  overwriting its link.
  */
  lemma StartingOnAHalfDoneCloneLosesTheGroup(s: State, v: Id, w: Id, clone: Id)
    requires AboutToFill(s, v, w, clone)
    ensures !StartsSettled(s, Hijack(v, w, clone)[0], {Copr})
    ensures Runs(s, Hijack(v, w, clone))
    ensures var end := Execute(s, Hijack(v, w, clone));
            && v in end.workers && end.workers[v].pc == Finished(Some(clone))
            && w in end.workers && end.workers[w].pc == Finished(Some(clone))
            && clone in end.rows && !Links(end.rows[clone], (Copr, end.workers[v].group))
  {
    assert !Settled(s, clone) by {
      assert Unfilled(s.workers[w]) == Some(clone);
    }
    var s4 := HijackedState(s, v, w, clone);
    RunsCons(s4, Fill(w), []);
  }

  function KojiRace(v: Id, w: Id, target: Id): seq<Step> {
    [Begin(v, Koji, [target], None, None)] + ([Begin(w, Koji, [target], None, None)] +
    ([Read(v, false)] + ([Read(w, false)] + ([Assign(v)] + ([Assign(w)] + [])))))
  }

  /** The state in which both calls have seen no link and neither has written it. */
  lemma BothHaveSeenNoLink(s: State, v: Id, w: Id, target: Id) returns (s4: State)
    requires v != w && v !in s.workers && w !in s.workers && target < s.nextRow
    ensures s4.rows == s.rows && s4.locks == s.locks
    ensures v in s4.workers && s4.workers[v] == Worker(Koji, target, [], None, None, s.nextGroup, Assigning)
    ensures w in s4.workers && s4.workers[w] == Worker(Koji, target, [], None, None, s.nextGroup + 1, Assigning)
    ensures var tail := [Assign(v)] + ([Assign(w)] + []);
      Runs(s4, tail) ==> Runs(s, KojiRace(v, w, target)) && Execute(s, KojiRace(v, w, target)) == Execute(s4, tail)
  {
    var tail := [Assign(v)] + ([Assign(w)] + []);
    var s1 := Apply(s, Begin(v, Koji, [target], None, None));
    var s2 := Apply(s1, Begin(w, Koji, [target], None, None));
    var s3 := Apply(s2, Read(v, false));
    s4 := Apply(s3, Read(w, false));
    if Runs(s4, tail) {
      RunsCons(s3, Read(w, false), tail);
      RunsCons(s2, Read(v, false), [Read(w, false)] + tail);
      RunsCons(s1, Begin(w, Koji, [target], None, None), [Read(v, false)] + ([Read(w, false)] + tail));
      RunsCons(s, Begin(v, Koji, [target], None, None),
               [Begin(w, Koji, [target], None, None)] + ([Read(v, false)] + ([Read(w, false)] + tail)));
    }
  }

  /** The unguarded creators do lose groups: both calls return the pipeline, one group is linked nowhere. */
  lemma KojiCallsCanLoseAGroup(s: State, v: Id, w: Id, target: Id)
    requires v != w && v !in s.workers && w !in s.workers
    requires target in s.rows && target < s.nextRow && target !in s.locks && Koji !in s.rows[target].links
    ensures Runs(s, KojiRace(v, w, target))
    ensures var end := Execute(s, KojiRace(v, w, target));
            && v in end.workers && w in end.workers && target in end.rows
            && end.workers[v].pc == Finished(Some(target)) && end.workers[w].pc == Finished(Some(target))
            && (Koji, end.workers[v].group) in end.groups && !Links(end.rows[target], (Koji, end.workers[v].group))
  {
    hide KojiRace;
    var s4 := BothHaveSeenNoLink(s, v, w, target);
    var s5 := Apply(s4, Assign(v));
    RunsCons(s5, Assign(w), []);
    RunsCons(s4, Assign(v), [Assign(w)] + []);
  }

  // ---- Coherence needs the discipline ----

  /** A disciplined run from one state to another. */
  predicate Leads(s: State, steps: seq<Step>, s': State, kinds: set<Kind>) {
    Runs(s, steps) && Disciplined(s, steps, kinds) && Execute(s, steps) == s'
  }

  lemma {:induction false} LeadsOn(s: State, steps: seq<Step>, s': State, more: seq<Step>, s'': State, kinds: set<Kind>)
    requires Leads(s, steps, s', kinds) && Leads(s', more, s'', kinds)
    ensures Leads(s, steps + more, s'', kinds)
    decreases |steps|
  {
    hide Apply, Enabled, StartsSettled;
    if steps == [] {
      assert steps + more == more;
    } else {
      assert (steps + more)[1..] == steps[1..] + more;
      LeadsOn(Apply(s, steps[0]), steps[1..], s', more, s'', kinds);
    }
  }

  lemma LeadsOne(s: State, step: Step, kinds: set<Kind>)
    requires Enabled(s, step) && StartsSettled(s, step, kinds)
    ensures Leads(s, [step], Apply(s, step), kinds)
  {
    var s' := Apply(s, step);
    assert [step][1..] == [] && Runs(s', []) && Disciplined(s', [], kinds) && Execute(s', []) == s';
    assert Runs(s, [step]);
    assert Disciplined(s, [step], kinds) && Execute(s, [step]) == s';
  }

  lemma LeadsTwo(s: State, first: Step, second: Step, kinds: set<Kind>)
    requires Enabled(s, first) && StartsSettled(s, first, kinds)
    requires Enabled(Apply(s, first), second) && StartsSettled(Apply(s, first), second, kinds)
    ensures Leads(s, [first, second], Apply(Apply(s, first), second), kinds)
  {
    hide Apply, Enabled, StartsSettled;
    LeadsOne(s, first, kinds);
    LeadsOne(Apply(s, first), second, kinds);
    LeadsOn(s, [first], Apply(s, first), [second], Apply(Apply(s, first), second), kinds);
    assert [first] + [second] == [first, second];
  }

  lemma LeadsThree(s: State, first: Step, second: Step, third: Step, kinds: set<Kind>)
    requires Enabled(s, first) && StartsSettled(s, first, kinds)
    requires var s1 := Apply(s, first); Enabled(s1, second) && StartsSettled(s1, second, kinds)
    requires var s2 := Apply(Apply(s, first), second); Enabled(s2, third) && StartsSettled(s2, third, kinds)
    ensures Leads(s, [first, second, third], Apply(Apply(Apply(s, first), second), third), kinds)
  {
    hide Apply, Enabled, StartsSettled;
    var s2 := Apply(Apply(s, first), second);
    LeadsTwo(s, first, second, kinds);
    LeadsOne(s2, third, kinds);
    LeadsOn(s, [first, second], s2, [third], Apply(s2, third), kinds);
    assert [first, second] + [third] == [first, second, third];
  }

  /** A Copr or Koji call on a pipeline that has such a group publishes a clone. */
  lemma CallPublishes(s: State, kind: Kind, target: Id) returns (steps: seq<Step>, s': State)
    requires kind in BUILDS && s.workers == map[] && s.locks == map[] && target < s.nextRow
    requires target in s.rows && kind in s.rows[target].links
    ensures Leads(s, steps, s', SHARED)
    ensures s'.rows == s.rows[s.nextRow := Blank(s.rows[target].event, ClonePackage(kind, None, None, s.rows[target]))]
    ensures s'.workers == map[0 := Worker(kind, target, [], None, None, s.nextGroup, ReadingBack(s.nextRow))]
    ensures s'.locks == map[] && s'.nextRow == s.nextRow + 1 && s'.nextGroup == s.nextGroup + 1
    ensures kind == Copr ==> forall step | step in steps :: GuardedOnly(step)
  {
    var s1 := Apply(s, Begin(0, kind, [target], None, None));
    var worker := Worker(kind, target, [], None, None, s.nextGroup, Reading);
    assert [target][1..] == [];
    assert s1.workers == map[0 := worker];
    var s2 := Apply(s1, Read(0, true));
    assert s2.workers == map[0 := worker.(pc := Cloning(s.rows[target]))];
    s' := Apply(s2, Clone(0));
    assert s'.workers == map[0 := worker.(pc := ReadingBack(s.nextRow))];
    assert s'.locks == map[];
    steps := [Begin(0, kind, [target], None, None), Read(0, true), Clone(0)];
    LeadsThree(s, Begin(0, kind, [target], None, None), Read(0, true), Clone(0), SHARED);
  }

  /** A call of an unguarded creator, begun on a pipeline, assigns its group to it. */
  lemma AssignsItsGroup(s: State, w: Id) returns (s': State)
    requires w in s.workers && s.workers[w].pc.Reading? && !Guarded(s.workers[w].kind) && s.workers[w].rest == []
    requires s.workers[w].target in s.rows && s.workers[w].target !in s.locks
    ensures Leads(s, [Read(w, false), Assign(w)], s', SHARED)
    ensures var worker := s.workers[w];
            && s'.rows == s.rows[worker.target := s.rows[worker.target].(
                                   links := s.rows[worker.target].links[worker.kind := worker.group])]
            && s'.workers == s.workers[w := worker.(pc := Finished(Some(worker.target)))]
    ensures s'.locks == s.locks && s'.nextRow == s.nextRow && s'.nextGroup == s.nextGroup
  {
    var s1 := Apply(s, Read(w, false));
    s' := Apply(s1, Assign(w));
    LeadsTwo(s, Read(w, false), Assign(w), SHARED);
  }

  /** A Copr call, begun on a pipeline without a Copr group, takes it by the conditional update. */
  lemma TakesItForCopr(s: State, w: Id) returns (s': State)
    requires w in s.workers && s.workers[w].pc.Reading? && s.workers[w].kind == Copr && s.workers[w].rest == []
    requires s.workers[w].target in s.rows && s.locks == map[] && Copr !in s.rows[s.workers[w].target].links
    ensures Leads(s, [Read(w, false), Swap(w), CommitSwap(w)], s', SHARED)
    ensures var worker := s.workers[w];
            && s'.rows == s.rows[worker.target := s.rows[worker.target].(
                                   links := s.rows[worker.target].links[worker.kind := worker.group])]
            && s'.workers == s.workers[w := worker.(pc := Finished(Some(worker.target)))]
    ensures s'.locks == s.locks && s'.nextRow == s.nextRow && s'.nextGroup == s.nextGroup
  {
    var s1 := Apply(s, Read(w, false));
    var s2 := Apply(s1, Swap(w));
    s' := Apply(s2, CommitSwap(w));
    LeadsThree(s, Read(w, false), Swap(w), CommitSwap(w), SHARED);
    assert s'.locks == map[];
  }

  /** Either kind of call, begun on a pipeline without such a group, links it to its own. */
  lemma TakesIt(s: State, w: Id) returns (steps: seq<Step>, s': State)
    requires w in s.workers && s.workers[w].pc.Reading? && s.workers[w].kind in BUILDS && s.workers[w].rest == []
    requires s.workers[w].target in s.rows && s.locks == map[]
    requires s.workers[w].kind !in s.rows[s.workers[w].target].links
    ensures Leads(s, steps, s', SHARED)
    ensures var worker := s.workers[w];
            && s'.rows == s.rows[worker.target := s.rows[worker.target].(
                                   links := s.rows[worker.target].links[worker.kind := worker.group])]
            && s'.workers == s.workers[w := worker.(pc := Finished(Some(worker.target)))]
    ensures s'.locks == s.locks && s'.nextRow == s.nextRow && s'.nextGroup == s.nextGroup
  {
    hide Leads;
    if s.workers[w].kind == Copr {
      steps := [Read(w, false), Swap(w), CommitSwap(w)];
      s' := TakesItForCopr(s, w);
    } else {
      steps := [Read(w, false), Assign(w)];
      s' := AssignsItsGroup(s, w);
    }
  }

  /** A Log Detective call begun on a pipeline that has such a group publishes a clone. */
  lemma LogDetectivePublishes(s: State, w: Id) returns (s': State)
    requires w in s.workers && s.workers[w].pc.Reading? && s.workers[w].kind == LogDetective
    requires s.workers[w].target in s.rows && s.locks == map[] && LogDetective in s.rows[s.workers[w].target].links
    ensures Leads(s, [Read(w, true), Clone(w)], s', SHARED)
    ensures var source := s.rows[s.workers[w].target];
            s'.rows == s.rows[s.nextRow := Blank(source.event, source.package)]
    ensures s'.workers == s.workers[w := s.workers[w].(pc := ReadingBack(s.nextRow))] && s'.locks == map[]
  {
    var s1 := Apply(s, Read(w, true));
    s' := Apply(s1, Clone(w));
    LeadsTwo(s, Read(w, true), Clone(w), SHARED);
  }

  /** It goes on and fills it. */
  lemma LogDetectiveFills(s: State, w: Id, clone: Id) returns (s': State)
    requires w in s.workers && s.workers[w].pc == ReadingBack(clone) && s.workers[w].kind == LogDetective
    requires s.workers[w].target in s.rows && clone in s.rows && s.rows[clone].links == map[] && clone !in s.locks
    ensures Leads(s, [ReadBack(w), Fill(w)], s', SHARED)
    ensures var source := s.rows[s.workers[w].target];
            && clone in s'.rows && s'.rows == s.rows[clone := s'.rows[clone]]
            && (s.rows[clone].srpm == None ==> s'.rows[clone].srpm == source.srpm)
            && s'.rows[clone].links == CloneLinks(LogDetective, source, s.workers[w].group)
    ensures s'.locks == s.locks
    ensures s'.workers.Keys == s.workers.Keys && forall v | v in s.workers && v != w :: s'.workers[v] == s.workers[v]
  {
    var links := CloneLinks(LogDetective, s.rows[s.workers[w].target], s.workers[w].group);
    var s1 := Apply(s, ReadBack(w));
    s' := Apply(s1, Fill(w));
    LeadsTwo(s, ReadBack(w), Fill(w), SHARED);
    assert map[] + links == links;
  }

  lemma LogDetectiveClones(s: State, w: Id) returns (steps: seq<Step>, s': State)
    requires w in s.workers && s.workers[w].pc.Reading? && s.workers[w].kind == LogDetective
    requires s.workers[w].target in s.rows && s.workers[w].target < s.nextRow && s.locks == map[]
    requires LogDetective in s.rows[s.workers[w].target].links
    ensures Leads(s, steps, s', SHARED)
    ensures var source := s.rows[s.workers[w].target];
            && s.nextRow in s'.rows && s'.rows == s.rows[s.nextRow := s'.rows[s.nextRow]]
            && s'.rows[s.nextRow].srpm == source.srpm
            && s'.rows[s.nextRow].links == CloneLinks(LogDetective, source, s.workers[w].group)
    ensures s'.workers.Keys == s.workers.Keys && forall v | v in s.workers && v != w :: s'.workers[v] == s.workers[v]
    ensures s'.locks == map[]
  {
    hide Leads;
    var s2 := LogDetectivePublishes(s, w);
    s' := LogDetectiveFills(s2, w, s.nextRow);
    LeadsOn(s, [Read(w, true), Clone(w)], s2, [ReadBack(w), Fill(w)], s', SHARED);
    steps := [Read(w, true), Clone(w)] + [ReadBack(w), Fill(w)];
  }

  /** The call that published the clone goes on and fills it. */
  lemma CallFills(s: State, w: Id, clone: Id) returns (s': State)
    requires w in s.workers && s.workers[w].pc == ReadingBack(clone) && s.workers[w].kind in BUILDS
    requires s.workers[w].target in s.rows && clone in s.rows && s.workers[w].rest == [] && s.locks == map[]
    ensures Leads(s, [ReadBack(w), Fill(w)], s', SHARED)
    ensures var worker := s.workers[w];
            && s'.rows == s.rows[clone := SetColumns(s.rows[clone], s.rows[worker.target].srpm,
                                                     CloneLinks(worker.kind, s.rows[worker.target], worker.group))]
            && s'.workers == s.workers[w := worker.(pc := Finished(Some(clone)))]
  {
    var s1 := Apply(s, ReadBack(w));
    s' := Apply(s1, Fill(w));
    LeadsTwo(s, ReadBack(w), Fill(w), SHARED);
  }

  /** A Log Detective call on a pipeline without such a group. */
  lemma LogDetectiveAssigns(s: State, w: Id, id: Id) returns (steps: seq<Step>, s': State)
    requires id in s.rows && id < s.nextRow && s.locks == map[] && w !in s.workers
    ensures Leads(s, steps, s', SHARED)
    ensures s'.workers.Keys == s.workers.Keys + {w} && forall v | v in s.workers :: s'.workers[v] == s.workers[v]
    ensures s'.rows == s.rows[id := s.rows[id].(links := s.rows[id].links[LogDetective := s.nextGroup])]
    ensures s'.locks == map[] && s'.nextRow == s.nextRow
  {
    hide Leads;
    var first := Begin(w, LogDetective, [id], None, None);
    var s1 := Apply(s, first);
    LeadsOne(s, first, SHARED);
    s' := AssignsItsGroup(s1, w);
    LeadsOn(s, [first], s1, [Read(w, false), Assign(w)], s', SHARED);
    steps := [first] + [Read(w, false), Assign(w)];
  }

  /** And one on a pipeline that has one: its clone takes over the Copr and Koji groups. */
  lemma LogDetectiveCopies(s: State, w: Id, id: Id) returns (steps: seq<Step>, s': State)
    requires id in s.rows && id < s.nextRow && s.locks == map[] && w !in s.workers
    requires LogDetective in s.rows[id].links
    ensures Leads(s, steps, s', SHARED)
    ensures s'.workers.Keys == s.workers.Keys + {w} && forall v | v in s.workers :: s'.workers[v] == s.workers[v]
    ensures s.nextRow in s'.rows && s'.rows == s.rows[s.nextRow := s'.rows[s.nextRow]] && s'.locks == map[]
    ensures s'.rows[s.nextRow].srpm == s.rows[id].srpm
    ensures forall kind | kind in BUILDS && kind in s.rows[id].links ::
              Links(s'.rows[s.nextRow], (kind, s.rows[id].links[kind]))
  {
    hide Leads;
    var first := Begin(w, LogDetective, [id], None, None);
    var s1 := Apply(s, first);
    LeadsOne(s, first, SHARED);
    var last;
    last, s' := LogDetectiveClones(s1, w);
    LeadsOn(s, [first], s1, last, s', SHARED);
    steps := [first] + last;
  }

  /** Two Log Detective calls on the clone, the second of which copies its Copr and Koji groups. */
  lemma GroupsAreCopied(s: State, clone: Id) returns (steps: seq<Step>, s': State)
    requires clone in s.rows && clone < s.nextRow && s.locks == map[] && 2 !in s.workers && 3 !in s.workers
    requires s.nextRow !in s.rows && LogDetective !in s.rows[clone].links
    ensures Leads(s, steps, s', SHARED)
    ensures s'.workers.Keys == s.workers.Keys + {2, 3} && forall v | v in s.workers :: s'.workers[v] == s.workers[v]
    ensures forall id | id in s.rows && id != clone :: id in s'.rows && s'.rows[id] == s.rows[id]
    ensures clone in s'.rows && s'.rows[clone].(links := s.rows[clone].links) == s.rows[clone]
    ensures s.nextRow in s'.rows && s'.rows[s.nextRow].srpm == s.rows[clone].srpm && s'.locks == map[]
    ensures forall kind | kind in BUILDS && kind in s.rows[clone].links ::
              && Links(s'.rows[clone], (kind, s.rows[clone].links[kind]))
              && Links(s'.rows[s.nextRow], (kind, s.rows[clone].links[kind]))
  {
    hide Leads;
    var first, s1 := LogDetectiveAssigns(s, 2, clone);
    var second;
    second, s' := LogDetectiveCopies(s1, 3, clone);
    LeadsOn(s, first, s1, second, s', SHARED);
    steps := first + second;
  }

  /** The kind of the call that publishes the clone, for the kind of the call that is started on it. */
  function Filler(kind: Kind): Kind {
    if kind == Koji then Copr else Koji
  }

  /** The state in which a call has begun on the clone that another one, of kind `filler`, has yet to fill. */
  lemma CallBeginsOnTheClone(s: State, filler: Kind, kind: Kind, target: Id)
    returns (before: seq<Step>, mid: State, call: Step)
    requires Quiet(s) && filler in BUILDS && kind in SHARED && target in s.rows && filler in s.rows[target].links
    ensures Leads(s, before, mid, SHARED) && (filler == Copr ==> forall step | step in before :: GuardedOnly(step))
    ensures call.Begin? && call.kind == kind && Enabled(mid, call) && !StartsSettled(mid, call, {kind})
    ensures var clone, s1 := s.nextRow, Apply(mid, call);
            && clone in s1.rows
            && s1.rows == s.rows[clone := Blank(s.rows[target].event, ClonePackage(filler, None, None, s.rows[target]))]
            && s1.workers == map[0 := Worker(filler, target, [], None, None, s.nextGroup, ReadingBack(clone)),
                                 1 := Worker(kind, clone, [], None, None, s.nextGroup + 1,
                                             if kind == TestRun then Swapping else Reading)]
            && s1.locks == map[] && s1.nextRow == s.nextRow + 1
  {
    hide Leads;
    before, mid := CallPublishes(s, filler, target);
    call := Begin(1, kind, [s.nextRow], None, None);
    assert s.nextRow in call.targets && !Settled(mid, s.nextRow) && call.kind in {kind} by {
      assert Unfilled(mid.workers[0]) == Some(s.nextRow);
    }
    assert [s.nextRow][1..] == [];
    assert Apply(mid, call).workers ==
           mid.workers[1 := Worker(kind, s.nextRow, [], None, None, s.nextGroup + 1, if kind == TestRun then Swapping else Reading)];
    assert Apply(mid, call).rows == mid.rows;
  }

  /**
  Coherence needs the discipline too, for Copr and for Koji calls, on every quiet database with a
  pipeline that has an SRPM and a group of the other of the two kinds: when one such call is
  started on a clone that another call has yet to fill, the clone and a later clone of it can end
  in one group with different SRPMs.
  */
  lemma StartingOnAHalfDoneCloneMixesAGroup(s: State, kind: Kind, target: Id)
    returns (before: seq<Step>, mid: State, call: Step, after: seq<Step>, end: State)
    requires Quiet(s) && kind in BUILDS
    requires target in s.rows && Filler(kind) in s.rows[target].links && s.rows[target].srpm.Some?
    ensures Leads(s, before, mid, SHARED)
    ensures call.Begin? && call.kind == kind && Enabled(mid, call) && !StartsSettled(mid, call, {kind})
    ensures Leads(Apply(mid, call), after, end, SHARED)
    ensures !Coherent(end.rows)
  {
    hide Leads, Apply, Enabled, StartsSettled, Coherent;
    var clone := s.nextRow;
    before, mid, call := CallBeginsOnTheClone(s, Filler(kind), kind, target);
    var s1 := Apply(mid, call);
    var worker := s1.workers[1];
    var first, s3 := GroupIsTakenAndCopied(s1, kind, clone);
    end := CallFills(s3, 0, clone);
    after := first + [ReadBack(0), Fill(0)];
    LeadsOn(s1, first, s3, [ReadBack(0), Fill(0)], end, SHARED);
    FillingKeepsTheOtherLink(s3.rows[clone], kind, s.rows[target], s.nextGroup, worker.group);
    TwoRowsDisagree(end.rows, kind, clone, clone + 1, worker.group);
  }

  /** The call on the unfilled clone takes it, and a later clone of it takes over its group. */
  lemma GroupIsTakenAndCopied(s: State, kind: Kind, clone: Id) returns (steps: seq<Step>, s': State)
    requires kind in BUILDS && clone in s.rows && s.locks == map[] && s.nextRow == clone + 1 && s.nextRow !in s.rows
    requires s.rows[clone].links == map[] && s.rows[clone].srpm == None && s.workers.Keys == {0, 1}
    requires s.workers[1].kind == kind && s.workers[1].pc.Reading? && s.workers[1].target == clone && s.workers[1].rest == []
    ensures Leads(s, steps, s', SHARED) && s'.locks == map[]
    ensures 0 in s'.workers && s'.workers[0] == s.workers[0]
    ensures forall id | id in s.rows && id != clone :: id in s'.rows && s'.rows[id] == s.rows[id]
    ensures clone in s'.rows && Links(s'.rows[clone], (kind, s.workers[1].group))
    ensures clone + 1 in s'.rows && Links(s'.rows[clone + 1], (kind, s.workers[1].group)) && s'.rows[clone + 1].srpm == None
  {
    hide Leads;
    var first, s2 := TakesIt(s, 1);
    var more;
    more, s' := GroupsAreCopied(s2, clone);
    LeadsOn(s, first, s2, more, s', SHARED);
    steps := first + more;
    assert s2.rows[clone].links == map[kind := s.workers[1].group];
  }

  lemma FillingKeepsTheOtherLink(row: Row, kind: Kind, source: Row, group: Id, other: Id)
    requires kind in BUILDS && Links(row, (kind, other)) && source.srpm.Some?
    ensures var filled := SetColumns(row, source.srpm, CloneLinks(Filler(kind), source, group));
            Links(filled, (kind, other)) && filled.srpm == source.srpm
  {
  }

  lemma TwoRowsDisagree(rows: map<Id, Row>, kind: Kind, p: Id, q: Id, group: Id)
    requires kind in BUILDS && p in rows && q in rows && Links(rows[p], (kind, group)) && Links(rows[q], (kind, group))
    requires rows[p].srpm != rows[q].srpm
    ensures !Coherent(rows)
  {
    assert Shared(kind) && kind in rows[p].links && kind in rows[q].links && FieldsOf(rows[p]) != FieldsOf(rows[q]);
  }

  // ---- The order of guarded calls needs it, for Copr and for test-run calls ----

  /** A link that a call has set is there whatever is done afterwards. */
  lemma {:induction false} ReplayKeepsLink(base: Db, log: seq<Op>, i: nat, id: Id, kind: Kind, group: Id)
    requires LogIsFresh(base, log) && i <= |log| && LinkOf(Replay(base, log[..i]).rows, id, kind) == Some(group)
    ensures LinkOf(Replay(base, log).rows, id, kind) == Some(group)
    decreases |log| - i
  {
    if i == |log| {
      assert log[..i] == log;
    } else {
      assert log[..i + 1] == log[..i] + [log[i]];
      ReplayOne(base, log[..i], log[i]);
      OpKeepsLink(Replay(base, log[..i]), log[i], id, kind, group);
      ReplayKeepsLink(base, log, i + 1, id, kind, group);
    }
  }

  lemma OpKeepsLink(db: Db, op: Op, id: Id, kind: Kind, group: Id)
    requires NewId(op) !in db.rows && LinkOf(db.rows, id, kind) == Some(group)
    ensures LinkOf(OpAlone(db, op).rows, id, kind) == Some(group)
  {
  }

  /** In an explained state every call's pipeline is linked to the call's group. */
  lemma {:induction false} ExplainedCallsAreLinked(base: Db, log: seq<Op>, end: State, w: Id)
    requires Explains(base, log, end) && w in end.workers
    requires end.workers[w].pc.Finished? && end.workers[w].pc.result.Some?
    ensures LinkOf(end.rows, end.workers[w].pc.result.value, end.workers[w].kind) == Some(end.workers[w].group)
  {
    hide Replay, LogIsFresh, CallsDiffer, CalledBySome;
    var worker := end.workers[w];
    assert Logged(base, log, worker);
    var i :| LoggedAt(base, log, worker, i);
    assert log[..i + 1] == log[..i] + [log[i]];
    ReplayOne(base, log[..i], log[i]);
    ReplayKeepsLink(base, log, i + 1, worker.pc.result.value, worker.kind, worker.group);
  }

  lemma {:induction false} DisciplineOfFewer(s: State, steps: seq<Step>, more: set<Kind>, kinds: set<Kind>)
    requires Runs(s, steps) && Disciplined(s, steps, more) && kinds <= more
    ensures Disciplined(s, steps, kinds)
    decreases |steps|
  {
    hide Apply, Enabled;
    if steps != [] {
      DisciplineOfFewer(Apply(s, steps[0]), steps[1..], more, kinds);
    }
  }

  lemma LeadsFewer(s: State, steps: seq<Step>, s': State, kinds: set<Kind>)
    requires Leads(s, steps, s', SHARED) && kinds <= SHARED
    ensures Leads(s, steps, s', kinds)
  {
    DisciplineOfFewer(s, steps, SHARED, kinds);
  }

  /**
  On every quiet database with a pipeline that has a Copr group: one Copr call started on an
  unfilled clone, all else disciplined, and no sequence of operations explains the outcome.
  */
  lemma CoprStartSpoilsTheOrder(s: State, target: Id)
    returns (before: seq<Step>, mid: State, call: Step, after: seq<Step>, end: State)
    requires Quiet(s) && target in s.rows && Copr in s.rows[target].links
    ensures Leads(s, before, mid, SHARED)
    ensures call.Begin? && call.kind == Copr && Enabled(mid, call) && !StartsSettled(mid, call, {Copr})
    ensures Leads(Apply(mid, call), after, end, SHARED)
    ensures forall step | step in before + [call] + after :: GuardedOnly(step)
    ensures AllOver(end) && forall log :: !Explains(Db(s.rows, s.groups), log, end)
  {
    hide Leads, Apply, Enabled, StartsSettled, Explains;
    var clone := s.nextRow;
    before, mid, call := CallBeginsOnTheClone(s, Copr, Copr, target);
    var s1 := Apply(mid, call);
    var s2 := TakesItForCopr(s1, 1);
    end := CallFills(s2, 0, clone);
    after := [Read(1, false), Swap(1), CommitSwap(1)] + [ReadBack(0), Fill(0)];
    LeadsOn(s1, [Read(1, false), Swap(1), CommitSwap(1)], s2, [ReadBack(0), Fill(0)], end, SHARED);
    assert LinkOf(end.rows, clone, Copr) == Some(s.nextGroup);
    hide SetColumns, CloneLinks, ClonePackage, Blank;
    forall log ensures !Explains(Db(s.rows, s.groups), log, end) {
      if Explains(Db(s.rows, s.groups), log, end) {
        ExplainedCallsAreLinked(Db(s.rows, s.groups), log, end, 1);
      }
    }
  }

  /** A test-run call, begun on a pipeline without a test-run group, takes it by the conditional update. */
  lemma TestRunTakesIt(s: State, w: Id) returns (s': State)
    requires w in s.workers && s.workers[w].pc.Swapping? && s.workers[w].kind == TestRun
    requires s.workers[w].target in s.rows && s.locks == map[] && TestRun !in s.rows[s.workers[w].target].links
    ensures Leads(s, [Swap(w), CommitSwap(w)], s', SHARED)
    ensures var worker := s.workers[w];
            && s'.rows == s.rows[worker.target := s.rows[worker.target].(
                                   links := s.rows[worker.target].links[TestRun := worker.group])]
            && s'.workers == s.workers[w := worker.(pc := Finished(Some(worker.target)))]
    ensures s'.locks == map[] && s'.nextRow == s.nextRow
  {
    var s1 := Apply(s, Swap(w));
    s' := Apply(s1, CommitSwap(w));
    LeadsTwo(s, Swap(w), CommitSwap(w), SHARED);
    assert s'.locks == map[];
  }

  /** And one begun on a pipeline that has one clones it as it is. */
  lemma TestRunClones(s: State, w: Id) returns (s': State)
    requires w in s.workers && s.workers[w].pc.Swapping? && s.workers[w].kind == TestRun
    requires s.workers[w].target in s.rows && s.locks == map[] && TestRun in s.rows[s.workers[w].target].links
    requires s.nextRow !in s.rows
    ensures Leads(s, [Swap(w), Lock(w), Clone(w)], s', SHARED)
    ensures var source := s.rows[s.workers[w].target];
            && s.nextRow in s'.rows && s'.rows == s.rows[s.nextRow := s'.rows[s.nextRow]]
            && s'.rows[s.nextRow].event == source.event && s'.rows[s.nextRow].srpm == source.srpm
            && s'.workers == s.workers[w := s.workers[w].(pc := Finished(Some(s.nextRow)))]
    ensures s'.locks == map[]
  {
    var s1 := Apply(s, Swap(w));
    var s2 := Apply(s1, Lock(w));
    s' := Apply(s2, Clone(w));
    LeadsThree(s, Swap(w), Lock(w), Clone(w), SHARED);
    assert s'.locks == map[];
  }

  /** All pipelines of the event have an SRPM. */
  predicate HaveSrpms(rows: map<Id, Row>, event: Id) {
    forall id | id in rows && rows[id].event == event :: rows[id].srpm.Some?
  }

  /** Calls of the guarded creators, whoever makes them and in whatever order. */
  predicate GuardedCalls(log: seq<Op>) {
    forall i | 0 <= i < |log| :: log[i].Call? && Guarded(log[i].kind)
  }

  lemma {:induction false} CallsKeepSrpms(base: Db, log: seq<Op>, event: Id)
    requires HaveSrpms(base.rows, event) && GuardedCalls(log)
    ensures HaveSrpms(Replay(base, log).rows, event)
  {
    if log != [] {
      var rest := log[..|log| - 1];
      CallsKeepSrpms(base, rest, event);
      assert log[|log| - 1].Call? && Guarded(log[|log| - 1].kind);
      CallKeepsSrpms(Replay(base, rest), log[|log| - 1], event);
    }
  }

  lemma CallKeepsSrpms(db: Db, op: Op, event: Id)
    requires HaveSrpms(db.rows, event) && op.Call? && Guarded(op.kind)
    ensures HaveSrpms(CallAlone(db, op).0.rows, event)
  {
  }

  /** A second test-run call on the clone that the first one has taken. */
  lemma SecondTestRunClones(s: State, clone: Id) returns (steps: seq<Step>, s': State)
    requires clone in s.rows && clone < s.nextRow && s.locks == map[] && 2 !in s.workers && s.nextRow !in s.rows
    requires TestRun in s.rows[clone].links
    ensures Leads(s, steps, s', {Copr}) && forall step | step in steps :: GuardedOnly(step)
    ensures s.nextRow in s'.rows && s'.rows == s.rows[s.nextRow := s'.rows[s.nextRow]]
    ensures s'.rows[s.nextRow].event == s.rows[clone].event && s'.rows[s.nextRow].srpm == s.rows[clone].srpm
    ensures 2 in s'.workers && s'.workers == s.workers[2 := s'.workers[2]] && s'.workers[2].pc == Finished(Some(s.nextRow))
    ensures s'.locks == map[]
  {
    hide Leads;
    var call := Begin(2, TestRun, [clone], None, None);
    var s1 := Apply(s, call);
    LeadsOne(s, call, {Copr});
    s' := TestRunClones(s1, 2);
    LeadsFewer(s1, [Swap(2), Lock(2), Clone(2)], s', {Copr});
    LeadsOn(s, [call], s1, [Swap(2), Lock(2), Clone(2)], s', {Copr});
    steps := [call] + [Swap(2), Lock(2), Clone(2)];
  }

  /**
  On every quiet database in which a pipeline has a Copr group and all pipelines of its event have
  an SRPM: two test-run calls on an unfilled clone, no Copr call on any, and no sequence of guarded
  calls leaves the tables of the outcome, although no call fails.
  */
  lemma TestRunStartsSpoilTheOrder(s: State, target: Id) returns (steps: seq<Step>, end: State)
    requires Quiet(s) && target in s.rows && Copr in s.rows[target].links && HaveSrpms(s.rows, s.rows[target].event)
    ensures Leads(s, steps, end, {Copr}) && forall step | step in steps :: GuardedOnly(step)
    ensures forall w | w in end.workers :: end.workers[w].pc.Finished?
    ensures forall log | GuardedCalls(log) :: Replay(Db(s.rows, s.groups), log).rows != end.rows
  {
    hide Leads, Apply, Enabled, StartsSettled;
    var clone, event := s.nextRow, s.rows[target].event;
    var before, mid, call := CallBeginsOnTheClone(s, Copr, TestRun, target);
    var s1 := Apply(mid, call);
    LeadsFewer(s, before, mid, {Copr});
    BeginLeads(mid, call);
    LeadsOn(s, before, mid, [call], s1, {Copr});
    var s2 := TestRunTakesIt(s1, 1);
    LeadsFewer(s1, [Swap(1), CommitSwap(1)], s2, {Copr});
    LeadsOn(s, before + [call], s1, [Swap(1), CommitSwap(1)], s2, {Copr});
    var more, s3 := SecondTestRunClones(s2, clone);
    LeadsOn(s, before + [call] + [Swap(1), CommitSwap(1)], s2, more, s3, {Copr});
    end := CallFills(s3, 0, clone);
    LeadsFewer(s3, [ReadBack(0), Fill(0)], end, {Copr});
    steps := before + [call] + [Swap(1), CommitSwap(1)] + more + [ReadBack(0), Fill(0)];
    LeadsOn(s, before + [call] + [Swap(1), CommitSwap(1)] + more, s3, [ReadBack(0), Fill(0)], end, {Copr});
    assert end.rows[s2.nextRow].event == event && end.rows[s2.nextRow].srpm == None;
    forall log | GuardedCalls(log) ensures Replay(Db(s.rows, s.groups), log).rows != end.rows {
      CallsKeepSrpms(Db(s.rows, s.groups), log, event);
    }
  }

  lemma BeginLeads(s: State, call: Step)
    requires call.Begin? && call.kind == TestRun && Enabled(s, call)
    ensures Leads(s, [call], Apply(s, call), {Copr})
  {
    hide Apply, Enabled, Leads;
    LeadsOne(s, call, {Copr});
  }

  // ---- The unguarded creators ----

  /** The pipeline that the worker's next statement links. */
  function Linked(worker: Worker): Id {
    if worker.pc.Filling? then worker.pc.clone else worker.target
  }

  /** The worker may yet run an unconditional update of this pipeline's link. */
  predicate MayAssign(worker: Worker, kind: Kind, id: Id) {
    && worker.kind == kind && !Over(worker)
    && (id in worker.rest || (worker.target == id && (worker.pc.Reading? || worker.pc.Assigning?)))
  }

  /** No call of this kind is under way on the pipeline, and nobody still fills it. */
  ghost predicate Undisturbed(s: State, kind: Kind, id: Id) {
    && id < s.nextRow && Settled(s, id)
    && forall w | w in s.workers :: !MayAssign(s.workers[w], kind, id)
  }

  predicate BeginsOn(step: Step, kind: Kind, id: Id) {
    step.Begin? && step.kind == kind && id in step.targets
  }

  lemma {:induction false} StaysSettled(s: State, step: Step, id: Id, w: Id)
    requires id < s.nextRow && Settled(s, id) && Enabled(s, step) && w in Apply(s, step).workers
    ensures Unfilled(Apply(s, step).workers[w]) != Some(id)
  {
  }

  lemma {:induction false} BeginsElsewhere(s: State, step: Step, kind: Kind, id: Id)
    requires step.Begin? && Enabled(s, step) && !BeginsOn(step, kind, id)
    ensures !MayAssign(Apply(s, step).workers[step.worker], kind, id)
  {
    hide Guarded;
  }

  lemma {:induction false} StaysWithoutCalls(s: State, step: Step, kind: Kind, id: Id, w: Id)
    requires w in s.workers ==> !MayAssign(s.workers[w], kind, id)
    requires id < s.nextRow && Enabled(s, step) && !BeginsOn(step, kind, id) && w in Apply(s, step).workers
    ensures !MayAssign(Apply(s, step).workers[w], kind, id)
  {
    hide Guarded, BeginsOn, Blank, ClonePackage, CloneLinks, CloneSrpm, SetColumns;
    if step.Begin? && step.worker == w {
      BeginsElsewhere(s, step, kind, id);
    }
  }

  lemma {:induction false} StaysUndisturbed(s: State, step: Step, kind: Kind, id: Id)
    requires Undisturbed(s, kind, id) && Enabled(s, step) && !BeginsOn(step, kind, id)
    ensures Undisturbed(Apply(s, step), kind, id)
  {
    hide BeginsOn, MayAssign, Enabled, Apply;
    var s' := Apply(s, step);
    forall w | w in s'.workers ensures !MayAssign(s'.workers[w], kind, id) && Unfilled(s'.workers[w]) != Some(id) {
      StaysSettled(s, step, id, w);
      StaysWithoutCalls(s, step, kind, id, w);
    }
    IdsOnlyGrow(s, step);
  }

  lemma {:induction false} StepKeepsTheLink(s: State, step: Step, kind: Kind, id: Id, group: Id)
    requires Regular(s) && Undisturbed(s, kind, id) && Enabled(s, step) && !Guarded(kind)
    requires id in s.rows && Links(s.rows[id], (kind, group))
    ensures id in Apply(s, step).rows && Links(Apply(s, step).rows[id], (kind, group))
  {
    hide Regular, Undisturbed, Blank, ClonePackage, CloneLinks, CloneSrpm, CopiesSrpm, Unlocked;
    if !step.Insert? && step.worker in s.workers {
      WorkerIsUndisturbing(s, kind, id, step.worker);
    }
    assert id < s.nextRow by {
      IsDrawn(s, kind, id);
    }
  }

  lemma IsDrawn(s: State, kind: Kind, id: Id)
    requires Undisturbed(s, kind, id)
    ensures id < s.nextRow
  {
  }

  lemma WorkerIsUndisturbing(s: State, kind: Kind, id: Id, w: Id)
    requires Regular(s) && Undisturbed(s, kind, id) && w in s.workers
    ensures Placed(s.workers[w]) && !MayAssign(s.workers[w], kind, id) && Unfilled(s.workers[w]) != Some(id)
  {
    hide Regular;
    WorkerIsRegular(s, w);
  }

  lemma {:induction false} RunKeepsTheLink(s: State, steps: seq<Step>, kind: Kind, id: Id, group: Id)
    requires Regular(s) && Undisturbed(s, kind, id) && Runs(s, steps) && !Guarded(kind)
    requires forall i | 0 <= i < |steps| :: !BeginsOn(steps[i], kind, id)
    requires id in s.rows && Links(s.rows[id], (kind, group))
    ensures id in Execute(s, steps).rows && Links(Execute(s, steps).rows[id], (kind, group))
    decreases |steps|
  {
    hide Regular, Undisturbed, Apply, Enabled, BeginsOn, Links, Guarded;
    if steps != [] {
      StepIsRegular(s, steps[0]);
      StaysUndisturbed(s, steps[0], kind, id);
      StepKeepsTheLink(s, steps[0], kind, id, group);
      RunKeepsTheLink(Apply(s, steps[0]), steps[1..], kind, id, group);
    }
  }

  /** The statement that completes a call links the pipeline that the call then returns. */
  lemma {:induction false} CompletingLinks(s: State, step: Step)
    requires Regular(s) && Enabled(s, step) && (step.Assign? || step.Fill?) && s.workers[step.worker].kind != Srpm
    ensures var worker, s' := s.workers[step.worker], Apply(s, step);
            && Linked(worker) in s'.rows && Links(s'.rows[Linked(worker)], (worker.kind, worker.group))
            && (Over(s'.workers[step.worker]) ==> s'.workers[step.worker].pc == Finished(Some(Linked(worker))))
  {
    hide Regular;
    WorkerIsRegular(s, step.worker);
  }

  /**
  When the unguarded creators keep their groups: the pipeline that a call returns is linked to the
  call's group then and in every later state, as long as no other call of its kind was under way
  on that pipeline at that moment and none is begun on it since.
  */
  lemma {:induction false} UndisturbedCallsKeepTheirGroup(s: State, before: seq<Step>, step: Step, after: seq<Step>)
    requires Quiet(s) && Runs(s, before) && Enabled(Execute(s, before), step) && (step.Assign? || step.Fill?)
    requires var worker := Execute(s, before).workers[step.worker];
             && worker.kind != Srpm && !Guarded(worker.kind)
             && Undisturbed(Apply(Execute(s, before), step), worker.kind, Linked(worker))
             && forall i | 0 <= i < |after| :: !BeginsOn(after[i], worker.kind, Linked(worker))
    requires Runs(Apply(Execute(s, before), step), after)
    ensures var worker, done := Execute(s, before).workers[step.worker], Apply(Execute(s, before), step);
            && (Over(done.workers[step.worker]) ==> done.workers[step.worker].pc == Finished(Some(Linked(worker))))
            && Linked(worker) in Execute(done, after).rows
            && Links(Execute(done, after).rows[Linked(worker)], (worker.kind, worker.group))
  {
    hide Quiet, Regular, Undisturbed, BeginsOn, Execute, Runs, Apply, Links;
    var mid, done := Execute(s, before), Apply(Execute(s, before), step);
    var worker := mid.workers[step.worker];
    QuietIsRegular(s);
    RunIsRegular(s, before);
    CompletingLinks(mid, step);
    StepIsRegular(mid, step);
    RunKeepsTheLink(done, after, worker.kind, Linked(worker), worker.group);
  }

  /** The call of `w` reads, possibly an old null, and assigns. */
  function GoesOnAssigning(worker: Worker, w: Id): seq<Step> {
    if worker.pc.Reading? then [Read(w, false)] + ([Assign(w)] + []) else [Assign(w)] + []
  }

  /** And when they lose them: a call that is under way on the pipeline takes the link over. */
  lemma {:induction false} CallsUnderWayTakeTheLink(s: State, w: Id, id: Id)
    requires w in s.workers && s.workers[w].target == id && id in s.rows && id !in s.locks
    requires s.workers[w].pc.Reading? || s.workers[w].pc.Assigning?
    requires !Guarded(s.workers[w].kind)
    ensures Runs(s, GoesOnAssigning(s.workers[w], w))
    ensures var end := Execute(s, GoesOnAssigning(s.workers[w], w));
            id in end.rows && Links(end.rows[id], (s.workers[w].kind, s.workers[w].group))
  {
    if s.workers[w].pc.Reading? {
      var s1 := Apply(s, Read(w, false));
      RunsCons(s1, Assign(w), []);
      RunsCons(s, Read(w, false), [Assign(w)] + []);
    } else {
      RunsCons(s, Assign(w), []);
    }
  }

  // ---- Nobody waits forever ----

  /** A statement of a call under way that does not fail. */
  predicate NextStatement(step: Step) {
    !step.Insert? && !step.BeginNewRun? && !step.Begin? && !step.Abort?
  }

  /** What a worker that is not over can run next. */
  function Next(u: Id, worker: Worker): Step {
    match worker.pc
    case Reading => Read(u, false)
    case Swapping => Swap(u)
    case Swapped => CommitSwap(u)
    case Locking => Lock(u)
    case Cloning(_) => Clone(u)
    case ReadingBack(_) => ReadBack(u)
    case Filling(_, _, _) => Fill(u)
    case _ => Assign(u)
  }

  /** The row whose lock the worker's next statement waits for. */
  function WaitsFor(worker: Worker): Option<Id> {
    match worker.pc
    case Swapping => Some(worker.target)
    case Locking => Some(worker.target)
    case Assigning => Some(worker.target)
    case Filling(clone, _, _) => Some(clone)
    case _ => None
  }

  lemma {:induction false} UnblockedCanStep(s: State, u: Id)
    requires Regular(s) && u in s.workers && !Over(s.workers[u])
    requires s.workers[u].pc.Assigning? ==> s.workers[u].target in s.rows
    requires WaitsFor(s.workers[u]).Some? ==> WaitsFor(s.workers[u]).value !in s.locks
    ensures Enabled(s, Next(u, s.workers[u]))
  {
    hide Regular;
    WorkerIsRegular(s, u);
  }

  /** Whoever holds a lock waits for none. */
  lemma HoldersDoNotWait(s: State, id: Id)
    requires Regular(s) && id in s.locks
    ensures s.locks[id] in s.workers && WaitsFor(s.workers[s.locks[id]]) == None
    ensures !Over(s.workers[s.locks[id]]) && !s.workers[s.locks[id]].pc.Assigning?
  {
    assert Holds(s.workers[s.locks[id]], id);
  }

  lemma {:induction false} SomeoneCanStep(s: State, w: Id)
    requires Regular(s) && w in s.workers && !Over(s.workers[w])
    requires s.workers[w].pc.Assigning? ==> s.workers[w].target in s.rows
    ensures exists step :: Enabled(s, step) && NextStatement(step)
  {
    hide Regular, Enabled;
    var lock := WaitsFor(s.workers[w]);
    var u := if lock.Some? && lock.value in s.locks then s.locks[lock.value] else w;
    if u != w || (lock.Some? && lock.value in s.locks) {
      HoldersDoNotWait(s, lock.value);
    }
    UnblockedCanStep(s, u);
    assert NextStatement(Next(u, s.workers[u]));
  }

  /**
  In every run: as long as a call is not over, some worker can run its next statement.  A call
  that is about to assign to a pipeline which is not there raises instead.
  */
  lemma {:induction false} CallsNeverDeadlock(s: State, steps: seq<Step>, w: Id)
    requires Quiet(s) && Runs(s, steps)
    requires w in Execute(s, steps).workers && !Over(Execute(s, steps).workers[w])
    requires var end := Execute(s, steps); end.workers[w].pc.Assigning? ==> end.workers[w].target in end.rows
    ensures exists step :: Enabled(Execute(s, steps), step) && NextStatement(step)
  {
    hide Quiet, Regular, Runs, Execute, Enabled;
    QuietIsRegular(s);
    RunIsRegular(s, steps);
    SomeoneCanStep(Execute(s, steps), w);
  }
}
