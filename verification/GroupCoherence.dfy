/**
Whatever the interleaving of the creating calls, two pipelines that share a Copr, a Koji or a
test-run group agree on event, package and SRPM build, so reading any one of `group.runs` is
well defined.  For Copr and Koji groups the proof keeps a history `Home`: the fields of the
pipelines that a group has ever been linked to.  Test-run groups are never copied, so that each
new one has a single pipeline.
*/
module GroupCoherence {
  import opened Options
  import opened PipelineCreation
  import opened CreationInvariants

  datatype Fields = Fields(event: Id, package: Option<string>, srpm: Option<Id>)

  type Home = map<(Kind, Id), Fields>

  function FieldsOf(row: Row): Fields {
    Fields(row.event, row.package, row.srpm)
  }

  /** The groups that clones take over. */
  predicate Copies(kind: Kind) {
    kind in BUILDS
  }

  /** All pipelines of one Copr, Koji or test-run group belong to the same event, package and SRPM build. */
  ghost predicate Coherent(rows: map<Id, Row>) {
    forall p, q, k | p in rows && q in rows && Shared(k) && k in rows[p].links && k in rows[q].links ::
      rows[p].links[k] == rows[q].links[k] ==> FieldsOf(rows[p]) == FieldsOf(rows[q])
  }

  predicate LinkAtHome(links: map<Kind, Id>, kind: Kind, fields: Fields, home: Home) {
    kind in links ==> (kind, links[kind]) in home && home[(kind, links[kind])] == fields
  }

  predicate LinksAtHome(links: map<Kind, Id>, fields: Fields, home: Home) {
    LinkAtHome(links, Copr, fields, home) && LinkAtHome(links, Koji, fields, home)
  }

  /** Nothing but links of kinds whose groups are not copied. */
  predicate NothingCopied(links: map<Kind, Id>) {
    Copr !in links && Koji !in links
  }

  ghost predicate RowsAtHome(rows: map<Id, Row>, home: Home) {
    forall id | id in rows :: LinksAtHome(rows[id].links, FieldsOf(rows[id]), home)
  }

  ghost predicate IdsDrawn(s: State, home: Home) {
    && (forall id | id in s.rows :: id < s.nextRow)
    && (forall w | w in s.workers :: Drawn(s.workers[w], s.nextRow, s.nextGroup))
    && (forall k, g | (k, g) in home :: g < s.nextGroup)
  }

  /** `a` does not fill a row that `b` reads or updates for a Copr or Koji group. */
  predicate Avoids(a: Worker, b: Worker) {
    Copies(b.kind) ==> forall t | t in Targets(b) :: Unfilled(a) != Some(t)
  }

  ghost predicate AllApart(workers: map<Id, Worker>) {
    && PairwiseApart(workers)
    && (forall v, w | v in workers && w in workers :: Avoids(workers[v], workers[w]))
  }

  /** The worker's own group is not linked anywhere before its call links it. */
  predicate GroupUnused(worker: Worker, home: Home) {
    Copies(worker.kind) && !Over(worker) ==> (worker.kind, worker.group) !in home
  }

  predicate SameEvent(a: Row, b: Row) {
    a.event == b.event && a.package == b.package
  }

  /** A clone before it is filled; links of other kinds may have been set on it. */
  predicate HalfDone(row: Row) {
    row.srpm == None && NothingCopied(row.links)
  }

  predicate PcConsistent(rows: map<Id, Row>, worker: Worker, home: Home) {
    match worker.pc
    case Cloning(source) =>
      && worker.target in rows && SameEvent(source, rows[worker.target])
      && (ClonesInOneTransaction(worker.kind) ==> LinksAtHome(source.links, FieldsOf(source), home))
    case ReadingBack(clone) =>
      && !ClonesInOneTransaction(worker.kind) && clone in rows && HalfDone(rows[clone]) && worker.target in rows
      && (Copied(worker.kind) != {} ==> SameEvent(rows[clone], rows[worker.target]))
    case Filling(clone, srpm, links) =>
      && clone in rows && HalfDone(rows[clone])
      && TestRun !in links && (worker.kind in links ==> links[worker.kind] == worker.group)
      && var fields := Fields(rows[clone].event, rows[clone].package, srpm);
         && (worker.kind != Copr ==> LinkAtHome(links, Copr, fields, home))
         && (worker.kind != Koji ==> LinkAtHome(links, Koji, fields, home))
    case _ => true
  }

  predicate Consistent(rows: map<Id, Row>, worker: Worker, home: Home) {
    && (worker.kind != LogDetective ==> worker.rest == [])
    && ((worker.kind == Srpm || worker.kind == SyncRelease) ==> worker.pc.Filling? || Over(worker))
    && GroupUnused(worker, home)
    && PcConsistent(rows, worker, home)
  }

  ghost predicate Inv(s: State, home: Home) {
    && IdsDrawn(s, home) && AllApart(s.workers) && RowsAtHome(s.rows, home)
    && (forall w | w in s.workers :: Consistent(s.rows, s.workers[w], home))
  }

  /** A step of worker `w` leaves the rows that `other` relies on as it needs them. */
  predicate KeepsRowsOf(rows: map<Id, Row>, rows': map<Id, Row>, other: Worker) {
    && (!Over(other) && other.target in rows && other.kind != Srpm && other.kind != SyncRelease ==>
          && other.target in rows' && SameEvent(rows'[other.target], rows[other.target])
          && (Copies(other.kind) ==> rows'[other.target].srpm == rows[other.target].srpm))
    && (Unfilled(other).Some? && Unfilled(other).value in rows && HalfDone(rows[Unfilled(other).value]) ==>
          && Unfilled(other).value in rows' && HalfDone(rows'[Unfilled(other).value])
          && SameEvent(rows'[Unfilled(other).value], rows[Unfilled(other).value]))
  }

  ghost predicate Grows(home: Home, home': Home) {
    forall key | key in home :: key in home' && home'[key] == home[key]
  }

  lemma {:induction false} OtherStaysConsistent(
    rows: map<Id, Row>, rows': map<Id, Row>, other: Worker, home: Home, home': Home)
    requires Consistent(rows, other, home) && KeepsRowsOf(rows, rows', other)
    requires Grows(home, home') && GroupUnused(other, home')
    ensures Consistent(rows', other, home')
  {
  }

  /** What the invariant says of one worker. */
  lemma WorkerIsConsistent(s: State, w: Id, home: Home)
    requires Inv(s, home) && w in s.workers
    ensures Consistent(s.rows, s.workers[w], home) && Drawn(s.workers[w], s.nextRow, s.nextGroup)
    ensures Unfilled(s.workers[w]).Some? ==> Unfilled(s.workers[w]).value < s.nextRow
    ensures !Over(s.workers[w]) && s.workers[w].kind != Srpm && s.workers[w].kind != SyncRelease ==>
              s.workers[w].target in Targets(s.workers[w]) && s.workers[w].target < s.nextRow
  {
  }

  /** What the invariant says of two workers. */
  lemma WorkersAreApart(s: State, v: Id, w: Id, home: Home)
    requires Inv(s, home) && v in s.workers && w in s.workers
    ensures v != w ==> Apart(s.workers[v], s.workers[w])
    ensures Avoids(s.workers[v], s.workers[w])
  {
  }

  lemma RowIsAtHome(s: State, id: Id, home: Home)
    requires Inv(s, home) && id in s.rows
    ensures LinksAtHome(s.rows[id].links, FieldsOf(s.rows[id]), home) && id < s.nextRow
  {
  }

  lemma {:induction false} StaysApart(s: State, workers': map<Id, Worker>, w: Id, home: Home)
    requires Inv(s, home) && w in s.workers && OnlyMoves(s.workers, workers', w)
    requires MovesOn(s.workers[w], workers'[w], s.nextRow)
    ensures AllApart(workers')
  {
    hide Inv, Consistent;
    forall v, u | v in workers' && u in workers'
      ensures (v != u ==> Apart(workers'[v], workers'[u])) && Avoids(workers'[v], workers'[u])
    {
      WorkersAreApart(s, v, u, home);
      WorkersAreApart(s, u, v, home);
      WorkerIsConsistent(s, v, home);
      WorkerIsConsistent(s, u, home);
    }
  }

  lemma {:induction false} OthersStayConsistent(s: State, s': State, w: Id, home: Home, home': Home)
    requires Inv(s, home) && w in s.workers && OnlyMoves(s.workers, s'.workers, w) && Grows(home, home')
    requires forall v | v in s.workers && v != w ::
               GroupUnused(s.workers[v], home') && KeepsRowsOf(s.rows, s'.rows, s.workers[v])
    ensures forall v | v in s'.workers && v != w :: Consistent(s'.rows, s'.workers[v], home')
  {
    hide Inv, Consistent, Grows, Drawn;
    forall v | v in s'.workers && v != w ensures Consistent(s'.rows, s'.workers[v], home') {
      WorkerIsConsistent(s, v, home);
      assert GroupUnused(s.workers[v], home') && KeepsRowsOf(s.rows, s'.rows, s.workers[v]);
      OtherStaysConsistent(s.rows, s'.rows, s.workers[v], home, home');
    }
  }

  lemma {:induction false} WorkersStayDrawn(s: State, s': State, w: Id, home: Home)
    requires Inv(s, home) && w in s.workers && OnlyMoves(s.workers, s'.workers, w)
    requires MovesOn(s.workers[w], s'.workers[w], s.nextRow)
    requires s.nextRow <= s'.nextRow && s.nextGroup == s'.nextGroup
    ensures forall v | v in s'.workers :: Drawn(s'.workers[v], s'.nextRow, s'.nextGroup)
  {
    hide Inv, Consistent;
    forall v | v in s'.workers ensures Drawn(s'.workers[v], s'.nextRow, s'.nextGroup) {
      WorkerIsConsistent(s, v, home);
    }
  }

  /** The part of the invariant that a step of `w` has to re-establish itself. */
  lemma {:induction false} Carry(s: State, s': State, w: Id, home: Home, home': Home)
    requires Inv(s, home) && w in s.workers && OnlyMoves(s.workers, s'.workers, w)
    requires MovesOn(s.workers[w], s'.workers[w], s.nextRow)
    requires s.nextRow <= s'.nextRow && s.nextGroup == s'.nextGroup
    requires forall id | id in s'.rows :: id < s'.nextRow
    requires RowsAtHome(s'.rows, home') && Grows(home, home')
    requires forall k, g | (k, g) in home' :: g < s.nextGroup
    requires forall v | v in s.workers && v != w ::
               GroupUnused(s.workers[v], home') && KeepsRowsOf(s.rows, s'.rows, s.workers[v])
    requires Consistent(s'.rows, s'.workers[w], home')
    ensures Inv(s', home')
  {
    hide Consistent, RowsAtHome, AllApart, Drawn, KeepsRowsOf, Grows;
    StaysApart(s, s'.workers, w, home);
    WorkersStayDrawn(s, s', w, home);
    OthersStayConsistent(s, s', w, home, home');
  }

  lemma {:induction false} UnusedByOthers(s: State, w: Id, home: Home)
    requires Inv(s, home) && w in s.workers
    ensures forall v | v in s.workers && v != w :: GroupUnused(s.workers[v], home)
  {
    hide Inv, Drawn;
    forall v | v in s.workers && v != w ensures GroupUnused(s.workers[v], home) {
      WorkerIsConsistent(s, v, home);
    }
  }

  lemma HistoryIsDrawn(s: State, home: Home)
    requires Inv(s, home)
    ensures RowsAtHome(s.rows, home)
    ensures forall k, g | (k, g) in home :: g < s.nextGroup
    ensures forall id | id in s.rows :: id < s.nextRow
  {
  }

  /** Steps that leave the committed rows alone. */
  lemma {:induction false} CarrySameRows(s: State, s': State, w: Id, home: Home)
    requires Inv(s, home) && w in s.workers && OnlyMoves(s.workers, s'.workers, w)
    requires MovesOn(s.workers[w], s'.workers[w], s.nextRow)
    requires s'.rows == s.rows && s.nextRow == s'.nextRow && s.nextGroup == s'.nextGroup
    requires Consistent(s'.rows, s'.workers[w], home)
    ensures Inv(s', home)
  {
    hide Inv, Consistent, RowsAtHome;
    UnusedByOthers(s, w, home);
    HistoryIsDrawn(s, home);
    Carry(s, s', w, home, home);
  }

  lemma {:induction false} ReadKeeps(s: State, home: Home, w: Id, seen: bool)
    requires Inv(s, home) && CanRead(s, w, seen)
    ensures Inv(ApplyRead(s, w, seen), home)
  {
    hide Inv;
    WorkerIsConsistent(s, w, home);
    if seen {
      RowIsAtHome(s, s.workers[w].target, home);
    }
    CarrySameRows(s, ApplyRead(s, w, seen), w, home);
  }

  lemma {:induction false} SwapKeeps(s: State, home: Home, w: Id)
    requires Inv(s, home) && CanSwap(s, w)
    ensures Inv(ApplySwap(s, w), home)
  {
    hide Inv;
    WorkerIsConsistent(s, w, home);
    CarrySameRows(s, ApplySwap(s, w), w, home);
  }

  lemma {:induction false} LockKeeps(s: State, home: Home, w: Id)
    requires Inv(s, home) && CanLock(s, w)
    ensures Inv(ApplyLock(s, w), home)
  {
    hide Inv;
    WorkerIsConsistent(s, w, home);
    if s.workers[w].target in s.rows {
      RowIsAtHome(s, s.workers[w].target, home);
    }
    CarrySameRows(s, ApplyLock(s, w), w, home);
  }

  /** What is about to be written into the clone fits the source as it is now. */
  lemma {:induction false} ReadBackIsConsistent(s: State, home: Home, w: Id)
    requires Inv(s, home) && CanReadBack(s, w)
    ensures Consistent(s.rows, ApplyReadBack(s, w).workers[w], home)
  {
    hide Inv;
    WorkerIsConsistent(s, w, home);
    RowIsAtHome(s, s.workers[w].target, home);
  }

  lemma {:induction false} ReadBackKeeps(s: State, home: Home, w: Id)
    requires Inv(s, home) && CanReadBack(s, w)
    ensures Inv(ApplyReadBack(s, w), home)
  {
    hide Inv, Consistent;
    ReadBackIsConsistent(s, home, w);
    CarrySameRows(s, ApplyReadBack(s, w), w, home);
  }

  lemma {:induction false} AbortKeeps(s: State, home: Home, w: Id)
    requires Inv(s, home) && w in s.workers && !Over(s.workers[w])
    ensures Inv(ApplyAbort(s, w), home)
  {
    hide Inv;
    WorkerIsConsistent(s, w, home);
    CarrySameRows(s, ApplyAbort(s, w), w, home);
  }

  /** A row drawn now is nobody's target and nobody's clone. */
  lemma {:induction false} NewRowKeepsRows(s: State, rows': map<Id, Row>, home: Home, v: Id)
    requires Inv(s, home) && v in s.workers
    requires s.nextRow in rows' && rows' == s.rows[s.nextRow := rows'[s.nextRow]]
    ensures KeepsRowsOf(s.rows, rows', s.workers[v])
  {
    hide Inv;
    WorkerIsConsistent(s, v, home);
  }

  /** Steps that insert the row drawn now, which may be the first one of the worker's group. */
  lemma {:induction false} CarryNewRow(s: State, s': State, w: Id, home: Home, home': Home)
    requires Inv(s, home) && w in s.workers && OnlyMoves(s.workers, s'.workers, w)
    requires MovesOn(s.workers[w], s'.workers[w], s.nextRow)
    requires s.nextRow in s'.rows && s'.rows == s.rows[s.nextRow := s'.rows[s.nextRow]]
    requires s'.nextRow == s.nextRow + 1 && s.nextGroup == s'.nextGroup
    requires home' == home || home' == Settle(home, s.workers[w], s'.rows[s.nextRow])
    requires !Over(s.workers[w])
    requires LinksAtHome(s'.rows[s.nextRow].links, FieldsOf(s'.rows[s.nextRow]), home')
    requires Consistent(s'.rows, s'.workers[w], home')
    ensures Inv(s', home')
  {
    hide Inv, Consistent;
    UnusedByOthers(s, w, home);
    HistoryIsDrawn(s, home);
    UnusedByOne(s, w, home);
    SettlingIsQuiet(s, w, s'.rows[s.nextRow], home);
    forall v | v in s.workers && v != w ensures KeepsRowsOf(s.rows, s'.rows, s.workers[v]) {
      NewRowKeepsRows(s, s'.rows, home, v);
    }
    Carry(s, s', w, home, home');
  }

  /** Linking a group that was unused until now makes the row its home. */
  function Settle(home: Home, worker: Worker, row: Row): Home {
    if Copies(worker.kind) then home[(worker.kind, worker.group) := FieldsOf(row)] else home
  }

  lemma {:induction false} SettlingIsQuiet(s: State, w: Id, row: Row, home: Home)
    requires Inv(s, home) && w in s.workers && GroupUnused(s.workers[w], home) && !Over(s.workers[w])
    ensures var home' := Settle(home, s.workers[w], row);
            && Grows(home, home') && (forall k, g | (k, g) in home' :: g < s.nextGroup)
            && (forall v | v in s.workers && v != w :: GroupUnused(s.workers[v], home'))
  {
    hide Inv, RowsAtHome;
    HistoryIsDrawn(s, home);
    UnusedByOthers(s, w, home);
    WorkerIsConsistent(s, w, home);
    forall v | v in s.workers && v != w ensures GroupUnused(s.workers[v], Settle(home, s.workers[w], row)) {
      WorkersAreApart(s, v, w, home);
    }
  }

  lemma {:induction false} PublishKeeps(s: State, home: Home, w: Id)
    requires Inv(s, home) && w in s.workers && s.workers[w].pc.Cloning? && !ClonesInOneTransaction(s.workers[w].kind)
    ensures Inv(ApplyClone(s, w), home)
  {
    hide Inv;
    WorkerIsConsistent(s, w, home);
    CarryNewRow(s, ApplyClone(s, w), w, home, home);
  }

  /** The test-run clone has the fields of its source, and so may keep its groups. */
  lemma {:induction false} TestRunCloneIsAtHome(s: State, home: Home, w: Id)
    requires Inv(s, home) && w in s.workers && s.workers[w].pc.Cloning? && s.workers[w].kind == TestRun
    ensures s.nextRow in ApplyClone(s, w).rows
    ensures var row := ApplyClone(s, w).rows[s.nextRow];
            LinksAtHome(row.links, FieldsOf(row), Settle(home, s.workers[w], row))
  {
    hide Inv;
    WorkerIsConsistent(s, w, home);
  }

  lemma {:induction false} TestRunCloneKeeps(s: State, home: Home, w: Id) returns (home': Home)
    requires Inv(s, home) && w in s.workers && s.workers[w].pc.Cloning? && s.workers[w].kind == TestRun
    ensures Inv(ApplyClone(s, w), home')
  {
    hide Inv, LinksAtHome;
    var s' := ApplyClone(s, w);
    WorkerIsConsistent(s, w, home);
    TestRunCloneIsAtHome(s, home, w);
    home' := Settle(home, s.workers[w], s'.rows[s.nextRow]);
    CarryNewRow(s, s', w, home, home');
  }

  lemma {:induction false} CloneKeeps(s: State, home: Home, w: Id) returns (home': Home)
    requires Inv(s, home) && w in s.workers && s.workers[w].pc.Cloning?
    ensures Inv(ApplyClone(s, w), home')
  {
    hide Inv;
    if s.workers[w].kind == TestRun {
      home' := TestRunCloneKeeps(s, home, w);
    } else {
      PublishKeeps(s, home, w);
      home' := home;
    }
  }

  /** Steps that rewrite one row: the links it had stay at home, and its fields stay if it had any. */
  lemma {:induction false} CarryLink(s: State, s': State, w: Id, id: Id, home: Home)
    requires Inv(s, home) && w in s.workers && OnlyMoves(s.workers, s'.workers, w)
    requires MovesOn(s.workers[w], s'.workers[w], s.nextRow)
    requires s.nextRow == s'.nextRow && s.nextGroup == s'.nextGroup
    requires id in s.rows && id in s'.rows && s'.rows == s.rows[id := s'.rows[id]]
    requires forall v | v in s.workers && v != w :: KeepsRowsOf(s.rows, s'.rows, s.workers[v])
    requires GroupUnused(s.workers[w], home) && !Over(s.workers[w])
    requires LinksAtHome(s'.rows[id].links, FieldsOf(s'.rows[id]), Settle(home, s.workers[w], s'.rows[id]))
    requires Consistent(s'.rows, s'.workers[w], Settle(home, s.workers[w], s'.rows[id]))
    ensures Inv(s', Settle(home, s.workers[w], s'.rows[id]))
  {
    hide Inv, Consistent, KeepsRowsOf;
    var home' := Settle(home, s.workers[w], s'.rows[id]);
    SettlingIsQuiet(s, w, s'.rows[id], home);
    HistoryIsDrawn(s, home);
    forall r | r in s'.rows ensures LinksAtHome(s'.rows[r].links, FieldsOf(s'.rows[r]), home') {
      assert r != id ==> LinksAtHome(s.rows[r].links, FieldsOf(s.rows[r]), home);
    }
    Carry(s, s', w, home, home');
  }

  /** Setting one link of a target disturbs no other worker. */
  lemma {:induction false} LinkingATargetKeepsRows(s: State, w: Id, rows': map<Id, Row>, home: Home, v: Id)
    requires Inv(s, home) && w in s.workers && v in s.workers && v != w
    requires s.workers[w].target in Targets(s.workers[w]) && s.workers[w].target in s.rows
    requires s.workers[w].target in rows' && rows' == s.rows[s.workers[w].target := rows'[s.workers[w].target]]
    requires var worker, row := s.workers[w], s.rows[s.workers[w].target];
             rows'[worker.target] == row.(links := row.links[worker.kind := worker.group])
    ensures KeepsRowsOf(s.rows, rows', s.workers[v])
  {
    hide Inv;
    WorkersAreApart(s, v, w, home);
  }

  lemma LinkedRowIsAtHome(row: Row, worker: Worker, home: Home)
    requires LinksAtHome(row.links, FieldsOf(row), home) && GroupUnused(worker, home) && !Over(worker)
    ensures var row' := row.(links := row.links[worker.kind := worker.group]);
            LinksAtHome(row'.links, FieldsOf(row'), Settle(home, worker, row'))
  {
  }

  lemma {:induction false} CommitSwapKeeps(s: State, home: Home, w: Id) returns (home': Home)
    requires Inv(s, home) && CanCommitSwap(s, w)
    ensures Inv(ApplyCommitSwap(s, w), home')
  {
    hide Inv, KeepsRowsOf, LinksAtHome;
    var worker, s' := s.workers[w], ApplyCommitSwap(s, w);
    WorkerIsConsistent(s, w, home);
    RowIsAtHome(s, worker.target, home);
    LinkedRowIsAtHome(s.rows[worker.target], worker, home);
    forall v | v in s.workers && v != w ensures KeepsRowsOf(s.rows, s'.rows, s.workers[v]) {
      LinkingATargetKeepsRows(s, w, s'.rows, home, v);
    }
    CarryLink(s, s', w, worker.target, home);
    home' := Settle(home, worker, s'.rows[worker.target]);
  }

  lemma {:induction false} AssignKeeps(s: State, home: Home, w: Id) returns (home': Home)
    requires Inv(s, home) && CanAssign(s, w)
    ensures Inv(ApplyAssign(s, w), home')
  {
    hide Inv, KeepsRowsOf, LinksAtHome;
    var worker, s' := s.workers[w], ApplyAssign(s, w);
    WorkerIsConsistent(s, w, home);
    RowIsAtHome(s, worker.target, home);
    LinkedRowIsAtHome(s.rows[worker.target], worker, home);
    forall v | v in s.workers && v != w ensures KeepsRowsOf(s.rows, s'.rows, s.workers[v]) {
      LinkingATargetKeepsRows(s, w, s'.rows, home, v);
    }
    CarryLink(s, s', w, worker.target, home);
    home' := Settle(home, worker, s'.rows[worker.target]);
  }

  lemma {:induction false} FillKeepsRowsOf(s: State, home: Home, w: Id, v: Id)
    requires Inv(s, home) && CanFill(s, w) && v in s.workers && v != w
    ensures KeepsRowsOf(s.rows, ApplyFill(s, w).rows, s.workers[v])
  {
    hide Inv;
    WorkersAreApart(s, w, v, home);
    WorkerIsConsistent(s, v, home);
  }

  /** A filled clone has no shared link but those that the fill writes. */
  lemma {:induction false} FilledRowIsAtHome(s: State, home: Home, w: Id)
    requires Inv(s, home) && CanFill(s, w)
    ensures var row := ApplyFill(s, w).rows[s.workers[w].pc.clone];
            LinksAtHome(row.links, FieldsOf(row), Settle(home, s.workers[w], row))
  {
    hide Inv;
    WorkerIsConsistent(s, w, home);
  }

  lemma {:induction false} FillKeeps(s: State, home: Home, w: Id) returns (home': Home)
    requires Inv(s, home) && CanFill(s, w)
    ensures Inv(ApplyFill(s, w), home')
  {
    hide Inv, KeepsRowsOf, LinksAtHome;
    var worker, s' := s.workers[w], ApplyFill(s, w);
    WorkerIsConsistent(s, w, home);
    FilledRowIsAtHome(s, home, w);
    forall v | v in s.workers && v != w ensures KeepsRowsOf(s.rows, s'.rows, s.workers[v]) {
      FillKeepsRowsOf(s, home, w, v);
    }
    home' := Settle(home, worker, s'.rows[worker.pc.clone]);
    CarryLink(s, s', w, worker.pc.clone, home);
  }

  lemma {:induction false} InsertKeeps(s: State, home: Home, row: Row)
    requires Inv(s, home) && row.links == map[]
    ensures Inv(s.(rows := s.rows[s.nextRow := row], nextRow := s.nextRow + 1), home)
  {
    var s' := s.(rows := s.rows[s.nextRow := row], nextRow := s.nextRow + 1);
    forall v | v in s'.workers
      ensures Consistent(s'.rows, s'.workers[v], home) && Drawn(s'.workers[v], s'.nextRow, s'.nextGroup)
    {
      InsertKeepsWorker(s, home, row, v);
    }
  }

  lemma {:induction false} InsertKeepsWorker(s: State, home: Home, row: Row, v: Id)
    requires Inv(s, home) && v in s.workers
    ensures Consistent(s.rows[s.nextRow := row], s.workers[v], home) && Drawn(s.workers[v], s.nextRow + 1, s.nextGroup)
  {
    hide Inv, Consistent;
    WorkerIsConsistent(s, v, home);
    assert GroupUnused(s.workers[v], home) by {
      UnusedByOne(s, v, home);
    }
    NewRowKeepsRows(s, s.rows[s.nextRow := row], home, v);
    OtherStaysConsistent(s.rows, s.rows[s.nextRow := row], s.workers[v], home, home);
  }

  lemma UnusedByOne(s: State, w: Id, home: Home)
    requires Inv(s, home) && w in s.workers
    ensures GroupUnused(s.workers[w], home)
  {
  }

  /** A worker joins with a group drawn now; what it fills, if anything, is nobody's target. */
  lemma {:induction false} JoinKeeps(s: State, s': State, home: Home, w: Id)
    requires Inv(s, home) && w !in s.workers && w in s'.workers && s'.workers == s.workers[w := s'.workers[w]]
    requires s'.rows == s.rows && s'.nextRow == s.nextRow && s'.nextGroup == s.nextGroup + 1
    requires s'.workers[w].group == s.nextGroup && Drawn(s'.workers[w], s'.nextRow, s'.nextGroup)
    requires forall v | v in s'.workers :: Avoids(s'.workers[w], s'.workers[v]) && Avoids(s'.workers[v], s'.workers[w])
    requires forall v | v in s.workers :: Unfilled(s'.workers[w]).Some? ==> Unfilled(s'.workers[w]) != Unfilled(s.workers[v])
    requires Consistent(s'.rows, s'.workers[w], home)
    ensures Inv(s', home)
  {
    hide Consistent, RowsAtHome, Avoids;
    forall v | v in s.workers
      ensures Drawn(s.workers[v], s'.nextRow, s'.nextGroup)
      ensures Apart(s'.workers[w], s.workers[v]) && Apart(s.workers[v], s'.workers[w])
    {
      assert Drawn(s.workers[v], s.nextRow, s.nextGroup);
    }
    assert AllApart(s'.workers);
  }

  lemma {:induction false} BeginKeeps(
    s: State, home: Home, w: Id, kind: Kind, targets: seq<Id>, package: Option<string>, memory: Option<string>)
    requires Inv(s, home) && CanBegin(s, w, kind, targets)
    requires Copies(kind) ==> forall t | t in targets :: Settled(s, t)
    ensures Inv(ApplyBegin(s, w, kind, targets, package, memory), home)
  {
    hide Inv;
    var s' := ApplyBegin(s, w, kind, targets, package, memory);
    forall t | t in Targets(s'.workers[w]) ensures t in targets {
    }
    HistoryIsDrawn(s, home);
    JoinKeeps(s, s', home, w);
  }

  lemma {:induction false} BeginNewRunKeeps(s: State, home: Home, w: Id, kind: Kind, event: Id, package: Option<string>)
    requires Inv(s, home) && w !in s.workers && (kind == Srpm || kind == SyncRelease)
    ensures Inv(ApplyBeginNewRun(s, w, kind, event, package), home)
  {
    hide Inv, RowsAtHome;
    var s1 := s.(rows := s.rows[s.nextRow := Blank(event, package)], nextRow := s.nextRow + 1);
    var s' := ApplyBeginNewRun(s, w, kind, event, package);
    InsertKeeps(s, home, Blank(event, package));
    HistoryIsDrawn(s, home);
    forall v | v in s.workers
      ensures Avoids(s'.workers[w], s.workers[v]) && Unfilled(s.workers[v]) != Some(s.nextRow)
    {
      WorkerIsConsistent(s, v, home);
    }
    JoinKeeps(s1, s', home, w);
  }

  lemma {:induction false} StepKeeps(s: State, home: Home, step: Step) returns (home': Home)
    requires Inv(s, home) && Enabled(s, step) && StartsSettled(s, step, BUILDS)
    ensures Inv(Apply(s, step), home')
  {
    hide Inv, ApplyBeginNewRun, ApplyBegin, ApplyRead, ApplySwap, ApplyCommitSwap, ApplyLock, ApplyClone, ApplyReadBack,
      ApplyFill, ApplyAssign, ApplyAbort;
    home' := home;
    match step
    case Insert(event, package) => InsertKeeps(s, home, Blank(event, package));
    case BeginNewRun(w, kind, event, package) => BeginNewRunKeeps(s, home, w, kind, event, package);
    case Begin(w, kind, targets, package, memory) => BeginKeeps(s, home, w, kind, targets, package, memory);
    case Read(w, seen) => ReadKeeps(s, home, w, seen);
    case Swap(w) => SwapKeeps(s, home, w);
    case CommitSwap(w) => home' := CommitSwapKeeps(s, home, w);
    case Lock(w) => LockKeeps(s, home, w);
    case Clone(w) => home' := CloneKeeps(s, home, w);
    case ReadBack(w) => ReadBackKeeps(s, home, w);
    case Fill(w) => home' := FillKeeps(s, home, w);
    case Assign(w) => home' := AssignKeeps(s, home, w);
    case Abort(w) => AbortKeeps(s, home, w);
  }

  lemma {:induction false} RunKeeps(s: State, home: Home, steps: seq<Step>) returns (home': Home)
    requires Inv(s, home) && Runs(s, steps) && Disciplined(s, steps, BUILDS)
    ensures Inv(Execute(s, steps), home')
    decreases |steps|
  {
    hide Inv, Apply, Enabled, StartsSettled;
    home' := home;
    if steps != [] {
      var next := StepKeeps(s, home, steps[0]);
      home' := RunKeeps(Apply(s, steps[0]), next, steps[1..]);
    }
  }

  ghost function SomeHome(rows: map<Id, Row>, key: (Kind, Id)): (fields: Fields)
    requires exists id :: id in rows && Links(rows[id], key)
    ensures exists id :: id in rows && Links(rows[id], key) && fields == FieldsOf(rows[id])
  {
    var id :| id in rows && Links(rows[id], key);
    FieldsOf(rows[id])
  }

  /** The history that a quiet database starts with. */
  ghost function InitialHome(rows: map<Id, Row>): Home {
    var copr := set id | id in rows && Copr in rows[id].links :: (Copr, rows[id].links[Copr]);
    var koji := set id | id in rows && Koji in rows[id].links :: (Koji, rows[id].links[Koji]);
    map key | key in copr + koji && exists id :: id in rows && Links(rows[id], key) :: SomeHome(rows, key)
  }

  lemma {:induction false} LinkStartsAtHome(s: State, id: Id, kind: Kind)
    requires Coherent(s.rows) && id in s.rows && Copies(kind)
    ensures LinkAtHome(s.rows[id].links, kind, FieldsOf(s.rows[id]), InitialHome(s.rows))
  {
    if kind in s.rows[id].links {
      assert Shared(kind);
      var key := (kind, s.rows[id].links[kind]);
      assert Links(s.rows[id], key);
      assert key in InitialHome(s.rows);
      var fields := SomeHome(s.rows, key);
    }
  }

  lemma {:induction false} QuietIsConsistent(s: State)
    requires Quiet(s) && Coherent(s.rows)
    ensures Inv(s, InitialHome(s.rows))
  {
    forall id | id in s.rows
      ensures LinksAtHome(s.rows[id].links, FieldsOf(s.rows[id]), InitialHome(s.rows))
    {
      LinkStartsAtHome(s, id, Copr);
      LinkStartsAtHome(s, id, Koji);
    }
  }

  // ---- Test-run groups ----

  /** The ids and the test-run groups of a quiet database are drawn. */
  predicate BaseDrawn(base: State) {
    forall id | id in base.rows ::
      id < base.nextRow && (TestRun in base.rows[id].links ==> base.rows[id].links[TestRun] < base.nextGroup)
  }

  /** Since `base` no row has changed its fields that was there. */
  predicate FieldsKept(base: State, s: State) {
    forall id | id in base.rows :: id in s.rows && FieldsOf(s.rows[id]) == FieldsOf(base.rows[id])
  }

  /** Clones and groups of the workers are drawn since `base`. */
  ghost predicate DrawnSince(base: State, s: State) {
    && base.nextRow <= s.nextRow && base.nextGroup <= s.nextGroup
    && (forall id | id in s.rows :: id < s.nextRow)
    && (forall w | w in s.workers :: WorkerDrawnSince(base, s, s.workers[w]))
    && (forall v, w | v in s.workers && w in s.workers && v != w :: s.workers[v].group != s.workers[w].group)
  }

  predicate WorkerDrawnSince(base: State, s: State, worker: Worker) {
    && base.nextGroup <= worker.group < s.nextGroup
    && (Unfilled(worker).Some? ==> base.nextRow <= Unfilled(worker).value < s.nextRow)
  }

  /** A test-run link is an old one, or its group is that of a call that is over and linked nowhere else. */
  predicate TestLinkIsOwn(base: State, s: State, id: Id) {
    id in s.rows && TestRun in s.rows[id].links ==>
      var g := s.rows[id].links[TestRun];
      || (id in base.rows && TestRun in base.rows[id].links && base.rows[id].links[TestRun] == g)
      || (&& base.nextGroup <= g < s.nextGroup
          && (forall q | q in s.rows && q != id :: !Links(s.rows[q], (TestRun, g)))
          && (forall w | w in s.workers && !Over(s.workers[w]) && s.workers[w].kind == TestRun :: s.workers[w].group != g))
  }

  ghost predicate TestsInv(base: State, s: State) {
    && BaseDrawn(base) && FieldsKept(base, s) && DrawnSince(base, s)
    && (forall id | id in s.rows :: TestLinkIsOwn(base, s, id))
    && AllPlaced(s)
  }

  /** What the invariant says of one worker. */
  lemma TestWorker(base: State, s: State, w: Id)
    requires TestsInv(base, s) && w in s.workers
    ensures Placed(s.workers[w]) && base.nextGroup <= s.workers[w].group < s.nextGroup
    ensures Unfilled(s.workers[w]).Some? ==> base.nextRow <= Unfilled(s.workers[w]).value < s.nextRow
  {
  }

  /** Fields change only where a clone is filled. */
  lemma {:induction false} StepChangesNoFields(s: State, step: Step, id: Id)
    requires Enabled(s, step) && id in s.rows && id < s.nextRow
    requires step.Fill? ==> s.workers[step.worker].pc.clone != id
    ensures id in Apply(s, step).rows && FieldsOf(Apply(s, step).rows[id]) == FieldsOf(s.rows[id])
  {
    hide Blank, Unlocked, CloneLinks, ClonePackage, CloneSrpm, SetColumns, Guarded, CopiesSrpm;
  }

  lemma {:induction false} StepKeepsFields(base: State, s: State, step: Step)
    requires TestsInv(base, s) && Enabled(s, step)
    ensures FieldsKept(base, Apply(s, step))
  {
    hide TestsInv, Apply, Enabled;
    TestHistory(base, s);
    forall id | id in base.rows
      ensures id in Apply(s, step).rows && FieldsOf(Apply(s, step).rows[id]) == FieldsOf(base.rows[id])
    {
      if step.Fill? {
        FillsANewRow(base, s, step);
      }
      StepChangesNoFields(s, step, id);
    }
  }

  lemma FillsANewRow(base: State, s: State, step: Step)
    requires TestsInv(base, s) && Enabled(s, step) && step.Fill?
    ensures step.worker in s.workers && s.workers[step.worker].pc.Filling?
    ensures base.nextRow <= s.workers[step.worker].pc.clone < s.nextRow
  {
    hide TestsInv;
    TestWorker(base, s, step.worker);
  }

  lemma TestHistory(base: State, s: State)
    requires TestsInv(base, s)
    ensures BaseDrawn(base) && FieldsKept(base, s) && DrawnSince(base, s)
    ensures forall id | id in s.rows :: TestLinkIsOwn(base, s, id)
  {
  }

  lemma {:induction false} MovedIsDrawnSince(base: State, s: State, step: Step)
    requires Enabled(s, step) && !step.Insert? && base.nextRow <= s.nextRow && base.nextGroup <= s.nextGroup
    requires step.worker in s.workers ==> WorkerDrawnSince(base, s, s.workers[step.worker])
    ensures WorkerDrawnSince(base, Apply(s, step), Apply(s, step).workers[step.worker])
    ensures step.worker !in s.workers ==> Apply(s, step).workers[step.worker].group == s.nextGroup
  {
    hide Blank, Unlocked, CloneLinks, ClonePackage, CloneSrpm, SetColumns, Guarded, CopiesSrpm;
  }

  lemma {:induction false} NumbersOnlyGrow(s: State, step: Step)
    requires Enabled(s, step) && (forall id | id in s.rows :: id < s.nextRow)
    requires step.Fill? ==> s.workers[step.worker].pc.clone < s.nextRow
    ensures s.nextRow <= Apply(s, step).nextRow && s.nextGroup <= Apply(s, step).nextGroup
    ensures forall id | id in Apply(s, step).rows :: id < Apply(s, step).nextRow
  {
    hide Blank, Unlocked, CloneLinks, ClonePackage, CloneSrpm, SetColumns, Guarded, CopiesSrpm;
  }

  lemma {:induction false} StepKeepsDrawnSince(base: State, s: State, step: Step)
    requires TestsInv(base, s) && Enabled(s, step)
    ensures DrawnSince(base, Apply(s, step))
  {
    hide TestsInv, Apply;
    TestHistory(base, s);
    StepMovesOne(s, step);
    NumbersOnlyGrow(s, step);
    if !step.Insert? {
      MovedIsDrawnSince(base, s, step);
    }
    hide Enabled, FieldsKept, TestLinkIsOwn, BaseDrawn, Unfilled;
  }

  /** The row whose test-run link the statement may set. */
  function Touched(s: State, step: Step): Id {
    if step.CommitSwap? && step.worker in s.workers then s.workers[step.worker].target else s.nextRow
  }

  /** A test-run call that ends with this statement links its group to the row. */
  predicate EndsWithLink(s: State, s': State, step: Step, id: Id) {
    && (step.CommitSwap? || step.Clone?) && id == Touched(s, step)
    && step.worker in s.workers && step.worker in s'.workers && s.workers[step.worker].kind == TestRun
    && !Over(s.workers[step.worker]) && Over(s'.workers[step.worker])
    && LinkOf(s'.rows, id, TestRun) == Some(s.workers[step.worker].group)
  }

  lemma {:induction false} StepSetsOneTestLink(s: State, step: Step, id: Id)
    requires Enabled(s, step) && id in Apply(s, step).rows && s.nextRow !in s.rows
    requires !step.Insert? && step.worker in s.workers ==> Placed(s.workers[step.worker])
    ensures LinkOf(Apply(s, step).rows, id, TestRun) == LinkOf(s.rows, id, TestRun) || EndsWithLink(s, Apply(s, step), step, id)
  {
    hide ClonePackage, CloneSrpm, Unlocked, CopiesSrpm;
  }

  /** A group that a worker has yet to link is linked nowhere. */
  lemma {:induction false} GroupUnusedByTests(base: State, s: State, w: Id, q: Id)
    requires TestsInv(base, s) && w in s.workers && !Over(s.workers[w]) && s.workers[w].kind == TestRun
    ensures LinkOf(s.rows, q, TestRun) != Some(s.workers[w].group)
  {
    hide TestsInv;
    TestHistory(base, s);
    TestWorker(base, s, w);
    assert q in s.rows ==> TestLinkIsOwn(base, s, q);
  }

  /** The workers that may yet link a group after the step had it before, or have drawn it now. */
  lemma {:induction false} UnderWayBefore(base: State, s: State, step: Step, v: Id)
    requires TestsInv(base, s) && Enabled(s, step) && v in Apply(s, step).workers && !Over(Apply(s, step).workers[v])
    ensures var worker := Apply(s, step).workers[v];
            if v in s.workers then !Over(s.workers[v]) && s.workers[v].kind == worker.kind && s.workers[v].group == worker.group
            else worker.group == s.nextGroup
  {
    hide TestsInv, Apply, Enabled;
    TestHistory(base, s);
    StepMovesOne(s, step);
    if v !in s.workers {
      MovedIsDrawnSince(base, s, step);
    }
  }

  /** The link that a statement sets is the first one of its call's group. */
  lemma {:induction false} NewTestLinkIsOwn(base: State, s: State, step: Step, id: Id)
    requires TestsInv(base, s) && Enabled(s, step) && id in Apply(s, step).rows && EndsWithLink(s, Apply(s, step), step, id)
    ensures TestLinkIsOwn(base, Apply(s, step), id)
  {
    hide TestsInv, Apply, Enabled, DrawnSince;
    var s', g := Apply(s, step), s.workers[step.worker].group;
    TestWorker(base, s, step.worker);
    assert base.nextGroup <= g < s'.nextGroup by {
      GroupsAreDrawn(base, s, step);
    }
    forall q | q in s'.rows && q != id ensures !Links(s'.rows[q], (TestRun, g)) {
      RowIsNoneOfTheNext(base, s);
      StepSetsOneTestLink(s, step, q);
      GroupUnusedByTests(base, s, step.worker, q);
    }
    forall v | v in s'.workers && !Over(s'.workers[v]) ensures s'.workers[v].group != g {
      UnderWayBefore(base, s, step, v);
      GroupsDiffer(base, s, step.worker, v);
    }
  }

  lemma GroupsAreDrawn(base: State, s: State, step: Step)
    requires TestsInv(base, s) && Enabled(s, step)
    ensures base.nextGroup <= s.nextGroup <= Apply(s, step).nextGroup
  {
    hide Apply, Enabled;
    TestHistory(base, s);
    if step.Fill? {
      FillsANewRow(base, s, step);
    }
    NumbersOnlyGrow(s, step);
  }

  lemma RowIsNoneOfTheNext(base: State, s: State)
    requires TestsInv(base, s)
    ensures s.nextRow !in s.rows
    ensures forall w | w in s.workers :: Placed(s.workers[w])
  {
    TestHistory(base, s);
  }

  lemma GroupsDiffer(base: State, s: State, w: Id, v: Id)
    requires TestsInv(base, s) && w in s.workers
    ensures v in s.workers && v != w ==> s.workers[v].group != s.workers[w].group
    ensures s.workers[w].group < s.nextGroup
  {
    TestHistory(base, s);
    TestWorker(base, s, w);
  }

  lemma {:induction false} OldTestLinkIsOwn(base: State, s: State, step: Step, id: Id)
    requires TestsInv(base, s) && Enabled(s, step) && id in Apply(s, step).rows
    requires LinkOf(Apply(s, step).rows, id, TestRun) == LinkOf(s.rows, id, TestRun)
    ensures TestLinkIsOwn(base, Apply(s, step), id)
  {
    hide TestsInv, Apply, Enabled, DrawnSince;
    var s' := Apply(s, step);
    if TestRun in s'.rows[id].links {
      var g := s'.rows[id].links[TestRun];
      assert id in s.rows && TestLinkIsOwn(base, s, id) by {
        TestHistory(base, s);
      }
      if !(id in base.rows && TestRun in base.rows[id].links && base.rows[id].links[TestRun] == g) {
        GroupsAreDrawn(base, s, step);
        forall q | q in s'.rows && q != id ensures !Links(s'.rows[q], (TestRun, g)) {
          RowIsNoneOfTheNext(base, s);
          StepSetsOneTestLink(s, step, q);
        }
        forall v | v in s'.workers && !Over(s'.workers[v]) && s'.workers[v].kind == TestRun ensures s'.workers[v].group != g {
          UnderWayBefore(base, s, step, v);
        }
      }
    }
  }

  lemma {:induction false} StepKeepsTestLinks(base: State, s: State, step: Step, id: Id)
    requires TestsInv(base, s) && Enabled(s, step) && id in Apply(s, step).rows
    ensures TestLinkIsOwn(base, Apply(s, step), id)
  {
    hide TestsInv, Apply, Enabled, TestLinkIsOwn, LinkOf, EndsWithLink;
    RowIsNoneOfTheNext(base, s);
    StepSetsOneTestLink(s, step, id);
    if LinkOf(Apply(s, step).rows, id, TestRun) == LinkOf(s.rows, id, TestRun) {
      OldTestLinkIsOwn(base, s, step, id);
    } else {
      NewTestLinkIsOwn(base, s, step, id);
    }
  }

  lemma {:induction false} StepKeepsTests(base: State, s: State, step: Step)
    requires TestsInv(base, s) && Enabled(s, step)
    ensures TestsInv(base, Apply(s, step))
  {
    hide FieldsKept, DrawnSince, TestLinkIsOwn, AllPlaced, Apply, Enabled;
    var s' := Apply(s, step);
    StepKeepsFields(base, s, step);
    StepKeepsDrawnSince(base, s, step);
    forall id | id in s'.rows ensures TestLinkIsOwn(base, s', id) {
      StepKeepsTestLinks(base, s, step, id);
    }
    StepKeepsPlaced(s, step);
  }

  lemma {:induction false} RunKeepsTests(base: State, s: State, steps: seq<Step>)
    requires TestsInv(base, s) && Runs(s, steps)
    ensures TestsInv(base, Execute(s, steps))
    decreases |steps|
  {
    hide TestsInv, Apply, Enabled;
    if steps != [] {
      StepKeepsTests(base, s, steps[0]);
      RunKeepsTests(base, Apply(s, steps[0]), steps[1..]);
    }
  }

  ghost predicate KindCoherent(rows: map<Id, Row>, k: Kind) {
    forall p, q | p in rows && q in rows && k in rows[p].links && k in rows[q].links ::
      rows[p].links[k] == rows[q].links[k] ==> FieldsOf(rows[p]) == FieldsOf(rows[q])
  }

  lemma CoherentByKinds(rows: map<Id, Row>)
    ensures Coherent(rows) <==> KindCoherent(rows, Copr) && KindCoherent(rows, Koji) && KindCoherent(rows, TestRun)
  {
    assert Shared(Copr) && Shared(Koji) && Shared(TestRun);
  }

  lemma {:induction false} TestsAreCoherent(base: State, s: State)
    requires TestsInv(base, s) && KindCoherent(base.rows, TestRun)
    ensures KindCoherent(s.rows, TestRun)
  {
    hide TestsInv;
    TestHistory(base, s);
    forall p, q | p in s.rows && q in s.rows && TestRun in s.rows[p].links && TestRun in s.rows[q].links
                  && s.rows[p].links[TestRun] == s.rows[q].links[TestRun]
      ensures FieldsOf(s.rows[p]) == FieldsOf(s.rows[q])
    {
      assert TestLinkIsOwn(base, s, p) && TestLinkIsOwn(base, s, q);
    }
  }

  /** Test-run groups stay coherent in every interleaving, wherever calls are started. */
  lemma {:induction false} TestRunGroupsStayCoherent(s: State, steps: seq<Step>)
    requires Quiet(s) && KindCoherent(s.rows, TestRun) && Runs(s, steps)
    ensures KindCoherent(Execute(s, steps).rows, TestRun)
  {
    hide KindCoherent, Runs, Execute;
    RunKeepsTests(s, s, steps);
    TestsAreCoherent(s, Execute(s, steps));
  }

  // ---- All of them ----

  lemma {:induction false} HomeIsCoherent(s: State, home: Home)
    requires Inv(s, home)
    ensures KindCoherent(s.rows, Copr) && KindCoherent(s.rows, Koji)
  {
    forall p | p in s.rows ensures LinksAtHome(s.rows[p].links, FieldsOf(s.rows[p]), home) {
      RowIsAtHome(s, p, home);
    }
    hide Inv;
  }

  /** Coherence survives every interleaving of every number of creating calls, failing ones included. */
  lemma {:induction false} GroupsStayCoherent(s: State, steps: seq<Step>)
    requires Quiet(s) && Coherent(s.rows) && Runs(s, steps) && Disciplined(s, steps, BUILDS)
    ensures Coherent(Execute(s, steps).rows)
    ensures var rows := Execute(s, steps).rows;
            forall p, q, k | p in rows && q in rows && (k == Copr || k == Koji || k == TestRun)
                             && k in rows[p].links && k in rows[q].links && rows[p].links[k] == rows[q].links[k] ::
              rows[p].event == rows[q].event && rows[p].package == rows[q].package && rows[p].srpm == rows[q].srpm
  {
    hide Inv, Coherent, KindCoherent, Disciplined, Runs, Execute;
    QuietIsConsistent(s);
    var home := RunKeeps(s, InitialHome(s.rows), steps);
    HomeIsCoherent(Execute(s, steps), home);
    CoherentByKinds(s.rows);
    TestRunGroupsStayCoherent(s, steps);
    CoherentByKinds(Execute(s, steps).rows);
    CoherentColumns(Execute(s, steps).rows);
  }

  lemma CoherentColumns(rows: map<Id, Row>)
    requires Coherent(rows)
    ensures forall p, q, k | p in rows && q in rows && (k == Copr || k == Koji || k == TestRun)
                             && k in rows[p].links && k in rows[q].links && rows[p].links[k] == rows[q].links[k] ::
              rows[p].event == rows[q].event && rows[p].package == rows[q].package && rows[p].srpm == rows[q].srpm
  {
    forall p, q, k | p in rows && q in rows && (k == Copr || k == Koji || k == TestRun)
                     && k in rows[p].links && k in rows[q].links && rows[p].links[k] == rows[q].links[k]
      ensures rows[p].event == rows[q].event && rows[p].package == rows[q].package && rows[p].srpm == rows[q].srpm
    {
      assert Shared(k) && FieldsOf(rows[p]) == FieldsOf(rows[q]);
    }
  }
}
