/**
`CoprBuildTargetModel.add_scan_transaction`: the row of the scan, unique per build target, is
committed before the body runs, so that a second worker gets an IntegrityError instead.
*/
module ScanLock {
  type Id = nat
  type Worker = nat

  /** The two kinds of failure: of the insert, and of the body or the second commit. */
  datatype Pc = Idle | Inserted(build: Id) | Inside(build: Id) | Done(build: Id) | Refused | Failed(build: Id)

  /** A row of `scans`: what the body has filled in is there after the second commit. */
  datatype Scan = Empty | Filled

  datatype State = State(
    builds: set<Id>,                // Copr build targets
    scans: map<Id, Scan>,           // committed rows by build target
    pending: map<Id, Worker>,       // inserted, not committed: holds the entry of the unique index
    pcs: map<Worker, Pc>,
    entered: map<Id, nat>)          // history: how often a body was entered for a build target

  datatype Action =
    | Insert(w: Worker, b: Id)      // session.add(scan), sent by the flush of commit
    | CommitRow(w: Worker)          // COMMIT, then the body starts
    | FailRow(w: Worker)            // an exception before the row is committed
    | Finish(w: Worker)             // the body ends and its changes are committed
    | FailBody(w: Worker)           // the body or the commit raises: rollback
    | AddScan(b: Id)                // add_scan, the other way to give a build a scan
    | AddBuild(b: Id)
    | Sweep(b: Id)                  // the retention sweep takes the build and its scan

  function PcOf(s: State, w: Worker): Pc {
    if w in s.pcs then s.pcs[w] else Idle
  }

  function Entered(s: State, b: Id): nat {
    if b in s.entered then s.entered[b] else 0
  }

  predicate Free(pc: Pc) {
    !pc.Inserted? && !pc.Inside?
  }

  predicate Enabled(s: State, a: Action) {
    match a
    // a pending row of somebody else blocks the insert until that transaction ends
    case Insert(w, b) => Free(PcOf(s, w)) && b !in s.pending
    case CommitRow(w) => PcOf(s, w).Inserted?
    case FailRow(w) => PcOf(s, w).Inserted?
    case Finish(w) => PcOf(s, w).Inside?
    case FailBody(w) => PcOf(s, w).Inside?
    case AddScan(b) => b in s.builds && b !in s.scans && b !in s.pending
    // ids of build targets come from a sequence
    case AddBuild(b) => b !in s.builds && b !in s.entered
    // a pending row keeps the build target locked for the foreign key
    case Sweep(b) => b in s.builds && b !in s.pending
  }

  function Apply(s: State, a: Action): State
    requires Enabled(s, a)
  {
    match a
    case Insert(w, b) =>
      // unique and foreign key constraints
      if b in s.scans || b !in s.builds then s.(pcs := s.pcs[w := Refused])
      else s.(pending := s.pending[b := w], pcs := s.pcs[w := Inserted(b)])
    case CommitRow(w) =>
      var b := PcOf(s, w).build;
      s.(scans := s.scans[b := Empty], pending := s.pending - {b}, pcs := s.pcs[w := Inside(b)],
         entered := s.entered[b := Entered(s, b) + 1])
    case FailRow(w) => s.(pending := s.pending - {PcOf(s, w).build}, pcs := s.pcs[w := Refused])
    case Finish(w) =>
      var b := PcOf(s, w).build;
      if b in s.scans then s.(scans := s.scans[b := Filled], pcs := s.pcs[w := Done(b)])
      else s.(pcs := s.pcs[w := Failed(b)])
    case FailBody(w) => s.(pcs := s.pcs[w := Failed(PcOf(s, w).build)])
    case AddScan(b) => s.(scans := s.scans[b := Filled])
    case AddBuild(b) => s.(builds := s.builds + {b}, entered := s.entered[b := 0])
    case Sweep(b) => s.(builds := s.builds - {b}, scans := s.scans - {b})
  }

  predicate Runs(s: State, actions: seq<Action>)
    decreases |actions|
  {
    actions != [] ==> Enabled(s, actions[0]) && Runs(Apply(s, actions[0]), actions[1..])
  }

  function Execute(s: State, actions: seq<Action>): State
    requires Runs(s, actions)
    decreases |actions|
  {
    if actions == [] then s else Execute(Apply(s, actions[0]), actions[1..])
  }

  ghost predicate Initial(s: State) {
    && s.pcs == map[] && s.pending == map[] && s.scans.Keys <= s.builds && s.entered.Keys == s.builds
    && forall b | b in s.entered :: s.entered[b] == 0
  }

  ghost predicate PendingByOne(s: State) {
    forall w: Worker, b: Id :: PcOf(s, w) == Inserted(b) <==> b in s.pending && s.pending[b] == w
  }

  ghost predicate HasEntered(s: State, pc: Pc) {
    pc.Inside? || pc.Done? || pc.Failed? ==> pc.build in s.entered && s.entered[pc.build] == 1
  }

  /** Once a body was entered, the build has its scan row until the build is gone for good. */
  ghost predicate Inv(s: State) {
    && PendingByOne(s)
    && s.builds <= s.entered.Keys && s.scans.Keys <= s.builds
    && (forall b | b in s.pending :: b in s.builds && b !in s.scans)
    && (forall b | b in s.builds && b !in s.scans :: s.entered[b] == 0)
    && (forall b | b in s.entered :: s.entered[b] <= 1)
    && (forall w: Worker :: HasEntered(s, PcOf(s, w)))
  }

  /** Two bodies for one build would be two entries. */
  ghost predicate BodiesDiffer(s: State) {
    forall v: Worker, w: Worker | v != w && PcOf(s, v).Inside? && PcOf(s, w).Inside? :: PcOf(s, v).build != PcOf(s, w).build
  }

  lemma StepKeepsPending(s: State, a: Action)
    requires PendingByOne(s) && Enabled(s, a)
    ensures PendingByOne(Apply(s, a))
  {
    var s' := Apply(s, a);
    forall w: Worker, b: Id ensures PcOf(s', w) == Inserted(b) <==> b in s'.pending && s'.pending[b] == w {
      assert PcOf(s, w) == Inserted(b) <==> b in s.pending && s.pending[b] == w;
      if a.CommitRow? || a.FailRow? {
        assert PcOf(s, a.w) == Inserted(PcOf(s, a.w).build);
      }
    }
  }

  /** The body starts for a build that has no scan yet. */
  lemma CommitStartsTheFirst(s: State, a: Action)
    requires Inv(s) && Enabled(s, a) && (a.CommitRow? || a.FailRow?)
    ensures var b := PcOf(s, a.w).build; b in s.pending && b in s.builds && b !in s.scans && s.entered[b] == 0
  {
    assert PcOf(s, a.w) == Inserted(PcOf(s, a.w).build);
  }

  lemma StepKeepsTables(s: State, a: Action)
    requires Inv(s) && Enabled(s, a)
    ensures var s' := Apply(s, a);
            && s'.builds <= s'.entered.Keys && s'.scans.Keys <= s'.builds
            && (forall b | b in s'.pending :: b in s'.builds && b !in s'.scans)
            && (forall b | b in s'.builds && b !in s'.scans :: s'.entered[b] == 0)
            && (forall b | b in s'.entered :: s'.entered[b] <= 1)
  {
    hide PendingByOne;
    if a.CommitRow? || a.FailRow? {
      CommitStartsTheFirst(s, a);
    }
  }

  lemma StepKeepsHistory(s: State, a: Action, w: Worker)
    requires Inv(s) && Enabled(s, a)
    ensures HasEntered(Apply(s, a), PcOf(Apply(s, a), w))
  {
    hide PendingByOne;
    assert HasEntered(s, PcOf(s, w));
    if a.CommitRow? || a.FailRow? {
      CommitStartsTheFirst(s, a);
    }
  }

  lemma StepKeepsInv(s: State, a: Action)
    requires Inv(s) && Enabled(s, a)
    ensures Inv(Apply(s, a))
  {
    hide PendingByOne, HasEntered, Apply, Enabled;
    StepKeepsPending(s, a);
    StepKeepsTables(s, a);
    forall w: Worker ensures HasEntered(Apply(s, a), PcOf(Apply(s, a), w)) {
      StepKeepsHistory(s, a, w);
    }
  }

  lemma StepKeepsBodiesApart(s: State, a: Action)
    requires Inv(s) && Enabled(s, a) && BodiesDiffer(s)
    ensures BodiesDiffer(Apply(s, a))
  {
    hide PendingByOne;
    var s' := Apply(s, a);
    if a.CommitRow? {
      CommitStartsTheFirst(s, a);
    }
    forall v: Worker, w: Worker | v != w && PcOf(s', v).Inside? && PcOf(s', w).Inside?
      ensures PcOf(s', v).build != PcOf(s', w).build
    {
      assert HasEntered(s, PcOf(s, v)) && HasEntered(s, PcOf(s, w));
    }
  }

  lemma {:induction false} RunKeepsInv(s: State, actions: seq<Action>)
    requires Inv(s) && BodiesDiffer(s) && Runs(s, actions)
    ensures Inv(Execute(s, actions)) && BodiesDiffer(Execute(s, actions))
    decreases |actions|
  {
    if actions != [] {
      StepKeepsInv(s, actions[0]);
      StepKeepsBodiesApart(s, actions[0]);
      RunKeepsInv(Apply(s, actions[0]), actions[1..]);
    }
  }

  /** Over all interleavings and failures the body is entered at most once for each build target. */
  lemma {:induction false} BodyIsEnteredAtMostOnce(s: State, actions: seq<Action>, b: Id)
    requires Initial(s) && Runs(s, actions)
    ensures Entered(Execute(s, actions), b) <= 1 && BodiesDiffer(Execute(s, actions))
  {
    RunKeepsInv(s, actions);
  }

  /** The call of one worker for a build without a scan: it inserts the row, commits it and runs the body. */
  lemma FirstCallerGetsIn(s: State, w: Worker, b: Id) returns (inside: State)
    requires Free(PcOf(s, w)) && b in s.builds && b !in s.scans && b !in s.pending
    ensures Runs(s, [Insert(w, b), CommitRow(w)]) && inside == Execute(s, [Insert(w, b), CommitRow(w)])
    ensures PcOf(inside, w) == Inside(b) && b in inside.scans && inside.scans[b] == Empty && b !in inside.pending
    ensures Enabled(inside, Finish(w)) && Enabled(inside, FailBody(w))
    ensures PcOf(Apply(inside, Finish(w)), w) == Done(b) && Apply(inside, Finish(w)).scans == inside.scans[b := Filled]
    ensures PcOf(Apply(inside, FailBody(w)), w) == Failed(b) && Apply(inside, FailBody(w)).scans == inside.scans
  {
    var s1 := Apply(s, Insert(w, b));
    inside := Apply(s1, CommitRow(w));
    RunsOne(s1, CommitRow(w), []);
    RunsOne(s, Insert(w, b), [CommitRow(w)]);
    assert [CommitRow(w)] + [] == [CommitRow(w)] && [Insert(w, b)] + [CommitRow(w)] == [Insert(w, b), CommitRow(w)];
  }

  lemma RunsOne(s: State, a: Action, rest: seq<Action>)
    requires Enabled(s, a) && Runs(Apply(s, a), rest)
    ensures Runs(s, [a] + rest) && Execute(s, [a] + rest) == Execute(Apply(s, a), rest)
  {
    hide Apply, Enabled;
    assert ([a] + rest)[1..] == rest;
  }

  /** Any set of builds, some with a scan, is a start. */
  lemma TablesAreAStart(builds: set<Id>, scans: map<Id, Scan>)
    requires scans.Keys <= builds
    ensures Initial(State(builds, scans, map[], map[], map b | b in builds :: 0))
  {
  }

  /** The others are free to add scans and builds and to sweep, and workers to call again. */
  lemma OthersAreFree(s: State)
    ensures forall b | b in s.builds && b !in s.scans && b !in s.pending :: Enabled(s, AddScan(b))
    ensures forall b | b !in s.builds && b !in s.entered :: Enabled(s, AddBuild(b))
    ensures forall b | b in s.builds && b !in s.pending :: Enabled(s, Sweep(b))
    ensures forall w: Worker, b | !PcOf(s, w).Inserted? && !PcOf(s, w).Inside? && b !in s.pending :: Enabled(s, Insert(w, b))
    ensures forall w: Worker | PcOf(s, w).Inserted? :: Enabled(s, CommitRow(w)) && Enabled(s, FailRow(w))
    ensures forall w: Worker | PcOf(s, w).Inside? :: Enabled(s, Finish(w)) && Enabled(s, FailBody(w))
  {
  }

  /** A call for a build that has a scan, or that is gone, is refused and changes nothing. */
  lemma LaterCallersAreRefused(s: State, w: Worker, b: Id)
    requires Free(PcOf(s, w)) && b !in s.pending && (b in s.scans || b !in s.builds)
    ensures Enabled(s, Insert(w, b)) && Apply(s, Insert(w, b)) == s.(pcs := s.pcs[w := Refused])
  {
  }

  /** A failing body leaves the committed row, so for that build nobody enters again. */
  lemma {:induction false} FailedBodyIsNotRetried(s: State, actions: seq<Action>, more: seq<Action>, w: Worker, b: Id)
    requires Initial(s) && Runs(s, actions) && Runs(Execute(s, actions), more)
    requires PcOf(Execute(s, actions), w) == Failed(b)
    ensures var s' := Execute(s, actions); b in s'.builds ==> b in s'.scans
    ensures forall v: Worker :: PcOf(Execute(Execute(s, actions), more), v) == Inside(b) ==> PcOf(Execute(s, actions), v) == Inside(b)
  {
    RunKeepsInv(s, actions);
    EnteredBuildsAdmitNobody(Execute(s, actions), more, b);
  }

  lemma StepAdmitsNobody(s: State, a: Action, b: Id)
    requires Inv(s) && Enabled(s, a) && Entered(s, b) == 1
    ensures Entered(Apply(s, a), b) == 1
    ensures forall v: Worker :: PcOf(Apply(s, a), v) == Inside(b) ==> PcOf(s, v) == Inside(b)
  {
    if a.CommitRow? {
      CommitStartsTheFirst(s, a);
    }
    hide Inv;
  }

  lemma {:induction false} EnteredBuildsAdmitNobody(s: State, actions: seq<Action>, b: Id)
    requires Inv(s) && Runs(s, actions) && Entered(s, b) == 1
    ensures forall v: Worker :: PcOf(Execute(s, actions), v) == Inside(b) ==> PcOf(s, v) == Inside(b)
    decreases |actions|
  {
    hide Inv, Apply, Enabled, Entered;
    if actions != [] {
      StepKeepsInv(s, actions[0]);
      StepAdmitsNobody(s, actions[0], b);
      EnteredBuildsAdmitNobody(Apply(s, actions[0]), actions[1..], b);
    }
  }
}
