/**
`SidetagModel.get_or_create_for_updating` and the body that `get_or_create_sidetag` runs inside it.
A worker locks the row of the sidetag group, reads or creates the sidetag, lets the body make sure
that the sidetag exists in Koji, and commits; an exception anywhere rolls back.
*/
module SidetagLock {
  import opened Options

  type Id = nat
  type Worker = nat

  /** The name of a sidetag in Koji; Koji never gives one out twice. */
  type Tag = nat

  /** What a sidetag is for: the row of its group, and a dist-git branch. */
  datatype Place = Place(group: Id, target: string)

  datatype Sidetag = Sidetag(place: Place, tag: Option<Tag>)

  /** `made` is a tag that the body has created in Koji and not committed yet. */
  datatype Pc =
    | Idle
    | Waiting(group: string, target: string)
    | Locked(place: Place)
    | Inside(place: Place, id: Id, tag: Option<Tag>)
    | Leaving(place: Place, id: Id, tag: Option<Tag>, made: Option<Tag>)
    | Returned(place: Place, id: Id, tag: Option<Tag>)
    | Raised

  datatype State = State(
    groups: map<string, Id>,
    sidetags: map<Id, Sidetag>,     // committed rows
    used: set<Id>,                  // ids the sequence has given out
    locks: map<Id, Worker>,         // row locks on groups
    live: set<Tag>,                 // sidetags that exist in Koji
    origin: map<Tag, Place>,        // all sidetags ever created in Koji
    lost: set<Tag>,                 // those whose creator rolled back
    pcs: map<Worker, Pc>)

  datatype Action =
    | AddGroup(name: string, g: Id)
    | Call(w: Worker, group: string, target: string)
    | Lock(w: Worker)
    | Read(w: Worker, id: Id)
    | Keep(w: Worker)
    | Create(w: Worker, tag: Tag)
    | Commit(w: Worker)
    | Rollback(w: Worker)
    | Expire(tag: Tag)              // Koji deletes sidetags on its own

  function PcOf(s: State, w: Worker): Pc {
    if w in s.pcs then s.pcs[w] else Idle
  }

  /** The group whose lock the worker holds. */
  predicate Holds(pc: Pc, g: Id) {
    (pc.Locked? || pc.Inside? || pc.Leaving?) && pc.place.group == g
  }

  predicate Enabled(s: State, a: Action) {
    match a
    case AddGroup(name, g) => name !in s.groups && g !in s.groups.Values
    case Call(w, _, _) => PcOf(s, w).Idle? || PcOf(s, w).Returned? || PcOf(s, w).Raised?
    case Lock(w) =>
      var pc := PcOf(s, w);
      pc.Waiting? && (pc.group in s.groups ==> s.groups[pc.group] !in s.locks)
    case Read(w, id) =>
      var pc := PcOf(s, w);
      && pc.Locked?
      && if exists k | k in s.sidetags :: s.sidetags[k].place == pc.place
         then id in s.sidetags && s.sidetags[id].place == pc.place
         else id !in s.used
    case Keep(w) => PcOf(s, w).Inside? && PcOf(s, w).tag.Some? && PcOf(s, w).tag.value in s.live
    case Create(w, tag) =>
      var pc := PcOf(s, w);
      pc.Inside? && (pc.tag.None? || pc.tag.value !in s.live) && tag !in s.origin
    case Commit(w) => PcOf(s, w).Leaving?
    case Rollback(w) => PcOf(s, w).Locked? || PcOf(s, w).Inside? || PcOf(s, w).Leaving?
    case Expire(tag) => tag in s.live
  }

  function Apply(s: State, a: Action): State
    requires Enabled(s, a)
  {
    match a
    case AddGroup(name, g) => s.(groups := s.groups[name := g])
    case Call(w, group, target) => s.(pcs := s.pcs[w := Waiting(group, target)])
    case Lock(w) => ApplyLock(s, w)
    case Read(w, id) =>
      var place := PcOf(s, w).place;
      var tag := if id in s.sidetags then s.sidetags[id].tag else None;
      s.(used := s.used + {id}, pcs := s.pcs[w := Inside(place, id, tag)])
    case Keep(w) =>
      var pc := PcOf(s, w);
      s.(pcs := s.pcs[w := Leaving(pc.place, pc.id, pc.tag, None)])
    case Create(w, tag) =>
      var pc := PcOf(s, w);
      s.(live := s.live + {tag}, origin := s.origin[tag := pc.place],
         pcs := s.pcs[w := Leaving(pc.place, pc.id, Some(tag), Some(tag))])
    case Commit(w) =>
      var pc := PcOf(s, w);
      s.(sidetags := s.sidetags[pc.id := Sidetag(pc.place, pc.tag)], locks := s.locks - {pc.place.group},
         pcs := s.pcs[w := Returned(pc.place, pc.id, pc.tag)])
    case Rollback(w) =>
      var pc := PcOf(s, w);
      s.(locks := s.locks - {pc.place.group}, pcs := s.pcs[w := Raised],
         lost := s.lost + if pc.Leaving? && pc.made.Some? then {pc.made.value} else {})
    case Expire(tag) => s.(live := s.live - {tag})
  }

  /** A group that does not exist is an AttributeError, rolled back at once. */
  function ApplyLock(s: State, w: Worker): State
    requires PcOf(s, w).Waiting?
  {
    var pc := PcOf(s, w);
    if pc.group !in s.groups then s.(pcs := s.pcs[w := Raised])
    else
      var g := s.groups[pc.group];
      s.(locks := s.locks[g := w], pcs := s.pcs[w := Locked(Place(g, pc.target))])
  }

  predicate Runs(s: State, actions: seq<Action>)
    decreases |actions|
  {
    actions != [] ==> Enabled(s, actions[0]) && Runs(Apply(s, actions[0]), actions[1..])
  }

  function Execute(s: State, actions: seq<Action>): State
    requires Runs(s, actions)
    decreases |actions|
  {
    if actions == [] then s else Execute(Apply(s, actions[0]), actions[1..])
  }

  /** No call is under way, each place has at most one sidetag, and Koji has no sidetag but those of rows. */
  ghost predicate Initial(s: State) {
    && s.pcs == map[] && s.locks == map[] && s.sidetags.Keys <= s.used
    && OneSidetagPerPlace(s) && TagsHaveOrigins(s)
    && s.lost == {} && s.live <= s.origin.Keys
    && forall tag | tag in s.live :: exists k :: k in s.sidetags && s.sidetags[k] == Sidetag(s.origin[tag], Some(tag))
  }

  // ---- What every step keeps ----

  ghost predicate OneSidetagPerPlace(s: State) {
    forall k, l | k in s.sidetags && l in s.sidetags && s.sidetags[k].place == s.sidetags[l].place :: k == l
  }

  /** The holder of a lock is the one worker between `Lock` and the end of its transaction. */
  ghost predicate LocksHeld(s: State) {
    forall w: Worker, g: Id :: Holds(PcOf(s, w), g) <==> g in s.locks && s.locks[g] == w
  }

  /** What a worker inside knows about its row is still so. */
  ghost predicate RowKnown(s: State, pc: Pc) {
    && (pc.Inside? || pc.Leaving? ==>
         && pc.id in s.used
         && if pc.id in s.sidetags then s.sidetags[pc.id].place == pc.place
            else forall k | k in s.sidetags :: s.sidetags[k].place != pc.place)
    && (pc.Inside? ==> pc.tag == if pc.id in s.sidetags then s.sidetags[pc.id].tag else None)
    && (pc.Leaving? && pc.made.None? ==> pc.id in s.sidetags && pc.tag == s.sidetags[pc.id].tag && pc.tag.Some?)
    && (pc.Leaving? && pc.made.Some? ==> pc.tag == pc.made && pc.tag.value in s.origin && s.origin[pc.tag.value] == pc.place)
    && (pc.Leaving? && pc.made.Some? && pc.id in s.sidetags && s.sidetags[pc.id].tag.Some? ==>
         s.sidetags[pc.id].tag.value !in s.live)
    && (pc.Returned? ==> pc.id in s.sidetags && s.sidetags[pc.id].place == pc.place && pc.tag.Some?)
  }

  /** Two workers that are about to insert a row have different ids. */
  ghost predicate FreshIdsDiffer(s: State) {
    forall v: Worker, w: Worker | v != w && RowPending(s, v) && RowPending(s, w) :: PcOf(s, v).id != PcOf(s, w).id
  }

  ghost predicate RowPending(s: State, w: Worker) {
    (PcOf(s, w).Inside? || PcOf(s, w).Leaving?) && PcOf(s, w).id !in s.sidetags
  }

  /** A sidetag in Koji is the one of a row, about to become so, or lost in a rollback. */
  ghost predicate Accounted(s: State, tag: Tag)
    requires tag in s.origin
  {
    || (exists k :: k in s.sidetags && s.sidetags[k] == Sidetag(s.origin[tag], Some(tag)))
    || (exists w: Worker :: PcOf(s, w).Leaving? && PcOf(s, w).made == Some(tag) && PcOf(s, w).place == s.origin[tag])
    || tag in s.lost
  }

  ghost predicate TagsAccounted(s: State) {
    s.live <= s.origin.Keys && forall tag | tag in s.live :: Accounted(s, tag)
  }

  ghost predicate TagsHaveOrigins(s: State) {
    forall k | k in s.sidetags && s.sidetags[k].tag.Some? :: s.sidetags[k].tag.value in s.origin
  }

  ghost predicate Inv(s: State) {
    && TagsHaveOrigins(s)
    && s.sidetags.Keys <= s.used && OneSidetagPerPlace(s) && LocksHeld(s)
    && (forall w: Worker :: RowKnown(s, PcOf(s, w))) && FreshIdsDiffer(s) && TagsAccounted(s)
  }

  lemma StepKeepsLocks(s: State, a: Action)
    requires LocksHeld(s) && Enabled(s, a)
    ensures LocksHeld(Apply(s, a))
  {
    var s' := Apply(s, a);
    forall w: Worker, g: Id ensures Holds(PcOf(s', w), g) <==> g in s'.locks && s'.locks[g] == w {
      assert Holds(PcOf(s, w), g) <==> g in s.locks && s.locks[g] == w;
      if a.Commit? || a.Rollback? {
        assert Holds(PcOf(s, a.w), PcOf(s, a.w).place.group);
      }
    }
  }

  lemma OneHolder(s: State, v: Worker, w: Worker, g: Id)
    requires LocksHeld(s) && Holds(PcOf(s, v), g) && Holds(PcOf(s, w), g)
    ensures v == w
  {
    assert g in s.locks && s.locks[g] == v;
  }

  /** Nobody else can be in the transaction for the same place. */
  lemma PlacesAreExclusive(s: State, v: Worker, w: Worker)
    requires LocksHeld(s) && v != w
    requires PcOf(s, v).Locked? || PcOf(s, v).Inside? || PcOf(s, v).Leaving?
    requires PcOf(s, w).Locked? || PcOf(s, w).Inside? || PcOf(s, w).Leaving?
    ensures PcOf(s, v).place.group != PcOf(s, w).place.group
  {
    if PcOf(s, v).place.group == PcOf(s, w).place.group {
      OneHolder(s, v, w, PcOf(s, v).place.group);
    }
  }

  lemma StepKeepsRows(s: State, a: Action)
    requires Inv(s) && Enabled(s, a)
    ensures var s' := Apply(s, a);
            s'.sidetags.Keys <= s'.used && OneSidetagPerPlace(s') && TagsHaveOrigins(s')
  {
    if a.Commit? {
      assert RowKnown(s, PcOf(s, a.w));
    }
  }

  lemma CommitKeepsKnowledge(s: State, c: Worker, w: Worker)
    requires Inv(s) && PcOf(s, c).Leaving? && c != w
    ensures RowKnown(Apply(s, Commit(c)), PcOf(s, w))
  {
    assert RowKnown(s, PcOf(s, w)) && RowKnown(s, PcOf(s, c));
    if PcOf(s, w).Inside? || PcOf(s, w).Leaving? {
      PlacesAreExclusive(s, c, w);
      if PcOf(s, w).id == PcOf(s, c).id && PcOf(s, w).id !in s.sidetags {
        assert RowPending(s, w) && RowPending(s, c);
      }
    }
  }

  lemma OwnStepKeepsKnowledge(s: State, a: Action, w: Worker)
    requires RowKnown(s, PcOf(s, w)) && TagsHaveOrigins(s) && OneSidetagPerPlace(s) && s.sidetags.Keys <= s.used
    requires Enabled(s, a) && PcOf(Apply(s, a), w) != PcOf(s, w)
    ensures RowKnown(Apply(s, a), PcOf(Apply(s, a), w))
  {
  }

  lemma OtherStepKeepsKnowledge(s: State, a: Action, w: Worker)
    requires RowKnown(s, PcOf(s, w)) && TagsHaveOrigins(s) && Enabled(s, a) && !a.Commit? && PcOf(Apply(s, a), w) == PcOf(s, w)
    ensures RowKnown(Apply(s, a), PcOf(s, w))
  {
  }

  lemma StepKeepsKnowledge(s: State, a: Action, w: Worker)
    requires Inv(s) && Enabled(s, a)
    ensures RowKnown(Apply(s, a), PcOf(Apply(s, a), w))
  {
    assert RowKnown(s, PcOf(s, w));
    if PcOf(Apply(s, a), w) != PcOf(s, w) {
      OwnStepKeepsKnowledge(s, a, w);
    } else if a.Commit? {
      CommitKeepsKnowledge(s, a.w, w);
    } else {
      OtherStepKeepsKnowledge(s, a, w);
    }
    hide Inv, RowKnown;
  }

  lemma StepKeepsFreshIds(s: State, a: Action)
    requires Inv(s) && Enabled(s, a)
    ensures FreshIdsDiffer(Apply(s, a))
  {
    var s' := Apply(s, a);
    forall v: Worker, w: Worker | v != w && RowPending(s', v) && RowPending(s', w)
      ensures PcOf(s', v).id != PcOf(s', w).id
    {
      assert RowKnown(s, PcOf(s, v)) && RowKnown(s, PcOf(s, w));
      if !(a.Read? && a.w == v) { assert RowPending(s, v); }
      if !(a.Read? && a.w == w) { assert RowPending(s, w); }
    }
  }

  lemma StepKeepsTags(s: State, a: Action)
    requires Inv(s) && Enabled(s, a)
    ensures TagsAccounted(Apply(s, a))
  {
    var s' := Apply(s, a);
    forall tag | tag in s'.live ensures Accounted(s', tag) {
      if a.Create? && tag == a.tag {
        assert PcOf(s', a.w).made == Some(tag);
      } else {
        assert Accounted(s, tag);
        StepKeepsAccount(s, a, tag);
      }
    }
  }

  /** A sidetag that a row names is still named, or gone from Koji. */
  lemma StepKeepsNamedTag(s: State, a: Action, tag: Tag, k: Id)
    requires Inv(s) && Enabled(s, a) && tag in s.live && tag in Apply(s, a).live
    requires k in s.sidetags && s.sidetags[k] == Sidetag(s.origin[tag], Some(tag))
    ensures tag in Apply(s, a).origin && k in Apply(s, a).sidetags
    ensures Apply(s, a).sidetags[k] == Sidetag(Apply(s, a).origin[tag], Some(tag))
  {
    hide LocksHeld, FreshIdsDiffer, OneSidetagPerPlace;
    if a.Commit? {
      assert RowKnown(s, PcOf(s, a.w));
    }
  }

  /** A sidetag that a worker has just made becomes that of its row, or is lost. */
  lemma StepKeepsMadeTag(s: State, a: Action, tag: Tag, w: Worker)
    requires Inv(s) && Enabled(s, a) && tag in s.live && tag in Apply(s, a).live
    requires PcOf(s, w).Leaving? && PcOf(s, w).made == Some(tag) && PcOf(s, w).place == s.origin[tag]
    ensures tag in Apply(s, a).origin && Accounted(Apply(s, a), tag)
  {
    hide LocksHeld, FreshIdsDiffer, OneSidetagPerPlace;
    var s' := Apply(s, a);
    if a == Commit(w) {
      assert RowKnown(s, PcOf(s, w));
      assert s'.sidetags[PcOf(s, w).id] == Sidetag(s.origin[tag], Some(tag));
    } else if a != Rollback(w) {
      assert PcOf(s', w) == PcOf(s, w);
    }
  }

  lemma StepKeepsAccount(s: State, a: Action, tag: Tag)
    requires Inv(s) && Enabled(s, a) && tag in s.live && tag in Apply(s, a).live
    ensures tag in Apply(s, a).origin && Accounted(Apply(s, a), tag)
  {
    hide RowKnown, LocksHeld, FreshIdsDiffer, OneSidetagPerPlace, TagsHaveOrigins;
    if k :| k in s.sidetags && s.sidetags[k] == Sidetag(s.origin[tag], Some(tag)) {
      StepKeepsNamedTag(s, a, tag, k);
    } else if tag !in s.lost {
      var w :| PcOf(s, w).Leaving? && PcOf(s, w).made == Some(tag) && PcOf(s, w).place == s.origin[tag];
      StepKeepsMadeTag(s, a, tag, w);
    }
  }

  lemma StepKeepsInv(s: State, a: Action)
    requires Inv(s) && Enabled(s, a)
    ensures Inv(Apply(s, a))
  {
    StepKeepsLocks(s, a);
    StepKeepsRows(s, a);
    forall w: Worker ensures RowKnown(Apply(s, a), PcOf(Apply(s, a), w)) {
      StepKeepsKnowledge(s, a, w);
    }
    StepKeepsFreshIds(s, a);
    StepKeepsTags(s, a);
  }

  lemma {:induction false} RunKeepsInv(s: State, actions: seq<Action>)
    requires Inv(s) && Runs(s, actions)
    ensures Inv(Execute(s, actions))
    decreases |actions|
  {
    if actions != [] {
      StepKeepsInv(s, actions[0]);
      RunKeepsInv(Apply(s, actions[0]), actions[1..]);
    }
  }

  // ---- The protocol ----

  /** In every run the transactions of two workers on one group never overlap. */
  lemma {:induction false} BodiesOfAGroupNeverOverlap(s: State, actions: seq<Action>, v: Worker, w: Worker, g: Id)
    requires Initial(s) && Runs(s, actions) && v != w
    ensures !(Holds(PcOf(Execute(s, actions), v), g) && Holds(PcOf(Execute(s, actions), w), g))
  {
    RunKeepsInv(s, actions);
    if Holds(PcOf(Execute(s, actions), v), g) && Holds(PcOf(Execute(s, actions), w), g) {
      OneHolder(Execute(s, actions), v, w, g);
    }
  }

  /** At most one sidetag per group and target, also counting rows that are not committed yet. */
  lemma {:induction false} SidetagsAreUnique(s: State, actions: seq<Action>)
    requires Initial(s) && Runs(s, actions)
    ensures var s' := Execute(s, actions);
            && OneSidetagPerPlace(s')
            && (forall w: Worker | RowPending(s', w) ::
                  forall k | k in s'.sidetags :: s'.sidetags[k].place != PcOf(s', w).place)
            && (forall v: Worker, w: Worker | v != w && RowPending(s', v) && RowPending(s', w) ::
                  PcOf(s', v).place != PcOf(s', w).place)
  {
    RunKeepsInv(s, actions);
    var s' := Execute(s, actions);
    forall w: Worker | RowPending(s', w) ensures forall k | k in s'.sidetags :: s'.sidetags[k].place != PcOf(s', w).place {
      assert RowKnown(s', PcOf(s', w));
    }
    forall v: Worker, w: Worker | v != w && RowPending(s', v) && RowPending(s', w)
      ensures PcOf(s', v).place != PcOf(s', w).place
    {
      PlacesAreExclusive(s', v, w);
    }
  }

  /** All callers for one group and target get the same row, which has a name. */
  lemma {:induction false} CallersShareTheSidetag(s: State, actions: seq<Action>, v: Worker, w: Worker)
    requires Initial(s) && Runs(s, actions)
    requires var s' := Execute(s, actions);
             PcOf(s', v).Returned? && PcOf(s', w).Returned? && PcOf(s', v).place == PcOf(s', w).place
    ensures var s' := Execute(s, actions);
            PcOf(s', v).id == PcOf(s', w).id && PcOf(s', v).tag.Some? && PcOf(s', w).tag.Some?
  {
    RunKeepsInv(s, actions);
    assert RowKnown(Execute(s, actions), PcOf(Execute(s, actions), v));
    assert RowKnown(Execute(s, actions), PcOf(Execute(s, actions), w));
  }

  /** The body leaves with a sidetag that exists: the one of the row if that is live, or else a new one. */
  lemma BodyLeavesWithALiveSidetag(s: State, a: Action, w: Worker)
    requires Enabled(s, a) && PcOf(s, w).Inside? && PcOf(Apply(s, a), w).Leaving?
    ensures var pc, pc', s' := PcOf(s, w), PcOf(Apply(s, a), w), Apply(s, a);
            && pc'.place == pc.place && pc'.id == pc.id && pc'.tag.Some? && pc'.tag.value in s'.live
            && if pc.tag.Some? && pc.tag.value in s.live then pc'.tag == pc.tag && pc'.made == None && s'.live == s.live
               else pc'.made == pc'.tag && pc'.tag.value !in s.origin && s'.live == s.live + {pc'.tag.value}
                    && s'.origin == s.origin[pc'.tag.value := pc.place]
  {
  }

  /** Any table with one row for each place, each with its own sidetag if it has one, is a start. */
  lemma TablesAreAStart(groups: map<string, Id>, sidetags: map<Id, Sidetag>, origin: map<Tag, Place>, live: set<Tag>)
    requires forall k, l | k in sidetags && l in sidetags && k != l :: sidetags[k].place != sidetags[l].place
    requires forall k | k in sidetags && sidetags[k].tag.Some? :: sidetags[k].tag.value in origin
    requires live <= origin.Keys
    requires forall tag | tag in live :: exists k :: k in sidetags && sidetags[k] == Sidetag(origin[tag], Some(tag))
    ensures Initial(State(groups, sidetags, sidetags.Keys, map[], live, origin, {}, map[]))
  {
  }

  /** The others are free to add groups and to call, and Koji to delete sidetags. */
  lemma OthersAreFree(s: State)
    ensures forall name, g: Id | name !in s.groups && g !in s.groups.Values :: Enabled(s, AddGroup(name, g))
    ensures forall tag | tag in s.live :: Enabled(s, Expire(tag))
    ensures forall w: Worker, group, target | PcOf(s, w).Idle? || PcOf(s, w).Returned? || PcOf(s, w).Raised? ::
              Enabled(s, Call(w, group, target))
    ensures forall w: Worker | PcOf(s, w).Locked? || PcOf(s, w).Inside? || PcOf(s, w).Leaving? :: Enabled(s, Rollback(w))
  {
  }

  /** What the worker does with the sidetag that it finds in the row. */
  function Leave(s: State, w: Worker, id: Id, tag: Tag): Action {
    if id in s.sidetags && s.sidetags[id].tag.Some? && s.sidetags[id].tag.value in s.live then Keep(w) else Create(w, tag)
  }

  /** A whole call with nobody else on the group: it returns the row of its place, with a sidetag that is live. */
  lemma CallGetsASidetag(s: State, w: Worker, group: string, target: string, id: Id, tag: Tag) returns (end: State)
    requires PcOf(s, w).Idle? && group in s.groups && s.groups[group] !in s.locks
    requires var place := Place(s.groups[group], target);
             if exists k | k in s.sidetags :: s.sidetags[k].place == place
             then id in s.sidetags && s.sidetags[id].place == place else id !in s.used
    requires s.sidetags.Keys <= s.used && tag !in s.origin
    ensures var steps := [Call(w, group, target), Lock(w), Read(w, id), Leave(s, w, id, tag), Commit(w)];
            Runs(s, steps) && end == Execute(s, steps)
    ensures var place := Place(s.groups[group], target);
            && PcOf(end, w).Returned? && PcOf(end, w).place == place && PcOf(end, w).id == id
            && PcOf(end, w).tag.Some? && PcOf(end, w).tag.value in end.live
            && (id in s.sidetags && s.sidetags[id].tag.Some? && s.sidetags[id].tag.value in s.live ==>
                  PcOf(end, w).tag == s.sidetags[id].tag)
            && id in end.sidetags && end.sidetags == s.sidetags[id := Sidetag(place, PcOf(end, w).tag)]
  {
    var s2 := CallLocks(s, w, group, target);
    end := LockedCallGetsASidetag(s2, w, id, tag);
    var rest := [Read(w, id), Leave(s, w, id, tag), Commit(w)];
    hide Apply, Enabled;
    RunsOne(Apply(s, Call(w, group, target)), Lock(w), rest);
    RunsOne(s, Call(w, group, target), [Lock(w)] + rest);
    assert [Lock(w)] + rest == [Lock(w), Read(w, id), Leave(s, w, id, tag), Commit(w)];
    assert [Call(w, group, target)] + ([Lock(w)] + rest) ==
           [Call(w, group, target), Lock(w), Read(w, id), Leave(s, w, id, tag), Commit(w)];
  }

  lemma CallLocks(s: State, w: Worker, group: string, target: string) returns (s2: State)
    requires PcOf(s, w).Idle? && group in s.groups && s.groups[group] !in s.locks
    ensures Enabled(s, Call(w, group, target)) && Enabled(Apply(s, Call(w, group, target)), Lock(w))
    ensures s2 == Apply(Apply(s, Call(w, group, target)), Lock(w))
    ensures PcOf(s2, w) == Locked(Place(s.groups[group], target)) && s2.sidetags == s.sidetags && s2.used == s.used
    ensures s2.live == s.live && s2.origin == s.origin
  {
    s2 := Apply(Apply(s, Call(w, group, target)), Lock(w));
  }

  lemma LockedCallGetsASidetag(s: State, w: Worker, id: Id, tag: Tag) returns (end: State)
    requires PcOf(s, w).Locked? && tag !in s.origin && s.sidetags.Keys <= s.used
    requires if exists k | k in s.sidetags :: s.sidetags[k].place == PcOf(s, w).place
             then id in s.sidetags && s.sidetags[id].place == PcOf(s, w).place else id !in s.used
    ensures Runs(s, [Read(w, id), Leave(s, w, id, tag), Commit(w)])
    ensures end == Execute(s, [Read(w, id), Leave(s, w, id, tag), Commit(w)])
    ensures PcOf(end, w).Returned? && PcOf(end, w).place == PcOf(s, w).place && PcOf(end, w).id == id
    ensures PcOf(end, w).tag.Some? && PcOf(end, w).tag.value in end.live
    ensures id in s.sidetags && s.sidetags[id].tag.Some? && s.sidetags[id].tag.value in s.live ==>
              PcOf(end, w).tag == s.sidetags[id].tag
    ensures id in end.sidetags && end.sidetags == s.sidetags[id := Sidetag(PcOf(s, w).place, PcOf(end, w).tag)]
  {
    var leave := Leave(s, w, id, tag);
    var s3 := Apply(s, Read(w, id));
    var s4 := Apply(s3, leave);
    end := Apply(s4, Commit(w));
    assert Enabled(s3, leave) && Enabled(s4, Commit(w));
    hide Apply, Enabled;
    RunsOne(s4, Commit(w), []);
    RunsOne(s3, leave, [Commit(w)]);
    RunsOne(s, Read(w, id), [leave, Commit(w)]);
    assert [Commit(w)] + [] == [Commit(w)] && [leave] + [Commit(w)] == [leave, Commit(w)];
    assert [Read(w, id)] + [leave, Commit(w)] == [Read(w, id), leave, Commit(w)];
  }

  lemma RunsOne(s: State, a: Action, rest: seq<Action>)
    requires Enabled(s, a) && Runs(Apply(s, a), rest)
    ensures Runs(s, [a] + rest) && Execute(s, [a] + rest) == Execute(Apply(s, a), rest)
  {
    hide Apply, Enabled;
    assert ([a] + rest)[1..] == rest;
  }

  /** When no call is under way, Koji has at most one sidetag per place that no rollback has lost. */
  lemma {:induction false} KojiHasOneSidetagPerPlace(s: State, actions: seq<Action>, x: Tag, y: Tag)
    requires Initial(s) && Runs(s, actions)
    requires var s' := Execute(s, actions);
             && (forall w: Worker :: !PcOf(s', w).Leaving?)
             && x in s'.live && y in s'.live && x !in s'.lost && y !in s'.lost
             && x in s'.origin && y in s'.origin && s'.origin[x] == s'.origin[y]
    ensures x == y
  {
    RunKeepsInv(s, actions);
    var s' := Execute(s, actions);
    assert Accounted(s', x) && Accounted(s', y);
  }
}
