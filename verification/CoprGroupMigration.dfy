/**
The migration that puts Copr build groups between pipelines and build targets, and its
downgrade.  A row of either table has the columns of both revisions; the one that does not
exist yet, or any more, is null.
*/
module CoprGroupMigration {
  import opened Listings
  import opened Options

  type Id = nat

  datatype Target = Target(build: Option<string>, group: Option<Id>)

  datatype Pipeline = Pipeline(target: Option<Id>, group: Option<Id>)

  // ---- Upgrade ----

  /** The targets keep their builds and are grouped by them; a null build id is a build like any other. */
  ghost predicate GroupedByBuild(before: map<Id, Target>, after: map<Id, Target>) {
    && after.Keys == before.Keys
    && (forall t | t in before :: after[t].build == before[t].build && after[t].group.Some?)
    && (forall t, u | t in before && u in before :: after[t].group == after[u].group <==> before[t].build == before[u].build)
  }

  /** A pipeline points to the group of the target it pointed to. */
  ghost predicate FollowsTarget(before: map<Id, Pipeline>, targets: map<Id, Target>, after: map<Id, Pipeline>) {
    && after.Keys == before.Keys
    && forall p | p in before ::
         after[p] == Pipeline(None, if before[p].target.Some? && before[p].target.value in targets
                                    then targets[before[p].target.value].group else None)
  }

  ghost predicate Populated(targets: map<Id, Target>, g: Id) {
    exists t :: t in targets && targets[t].group == Some(g)
  }

  /** What the loop over the targets leaves in the defaultdict(list). */
  ghost predicate Collected(targets: map<Id, Target>, builds: seq<Option<string>>, ids: map<Option<string>, seq<Id>>) {
    && Lists(builds, ids.Keys)
    && (forall b | b in ids :: ids[b] != [])
    && (forall b, t | b in ids :: t in ids[b] <==> t in targets && targets[t].build == b)
    && (forall t | t in targets :: targets[t].build in ids)
  }

  /** The first `k` builds have made groups 0 to `k` - 1, and no other target has a group yet. */
  ghost predicate NumberedByBuild(targets: map<Id, Target>, builds: seq<Option<string>>, k: nat)
    requires k <= |builds|
  {
    && (forall t | t in targets && targets[t].group.Some? :: targets[t].group.value < k)
    && (forall t, j | t in targets && 0 <= j < |builds| && targets[t].build == builds[j] ::
         targets[t].group == if j < k then Some(j) else None)
  }

  /** What the dictionary holds once the targets of `seen` are through. */
  ghost predicate CollectedSoFar(
    targets: map<Id, Target>, seen: seq<Id>, builds: seq<Option<string>>, ids: map<Option<string>, seq<Id>>)
  {
    && (forall t | t in seen :: t in targets)
    && Lists(builds, ids.Keys)
    && (forall b | b in ids :: Distinct(ids[b]) && ids[b] != [])
    && (forall b, t | b in ids :: t in ids[b] <==> t in seen && targets[t].build == b)
    && (forall t | t in seen :: targets[t].build in ids)
  }

  /** A target whose build is there is appended to it, any other one starts a list of its own. */
  lemma CollectsOneMore(
    targets: map<Id, Target>, seen: seq<Id>, builds: seq<Option<string>>, ids: map<Option<string>, seq<Id>>, t: Id)
    requires CollectedSoFar(targets, seen, builds, ids) && t in targets && t !in seen
    ensures var b := targets[t].build;
            if b in ids then CollectedSoFar(targets, seen + [t], builds, ids[b := ids[b] + [t]])
            else CollectedSoFar(targets, seen + [t], builds + [b], ids[b := [t]])
  {
    var b := targets[t].build;
    if b in ids {
      assert ids[b := ids[b] + [t]].Keys == ids.Keys;
    } else {
      assert ids[b := [t]].Keys == ids.Keys + {b};
      OneMoreBuild(builds, ids.Keys, b);
    }
  }

  lemma NothingCollected(targets: map<Id, Target>)
    ensures CollectedSoFar(targets, [], [], map[])
  {
  }

  lemma AllCollected(
    targets: map<Id, Target>, order: seq<Id>, builds: seq<Option<string>>, ids: map<Option<string>, seq<Id>>)
    requires Lists(order, targets.Keys) && CollectedSoFar(targets, order, builds, ids)
    ensures Collected(targets, builds, ids) && forall b | b in ids :: Distinct(ids[b])
  {
  }

  lemma OneMoreBuild(builds: seq<Option<string>>, keys: set<Option<string>>, b: Option<string>)
    requires Lists(builds, keys) && b !in keys
    ensures Lists(builds + [b], keys + {b})
  {
  }

  /** The same dictionary, read after some targets got their groups. */
  lemma CollectedStill(
    before: map<Id, Target>, after: map<Id, Target>, builds: seq<Option<string>>, ids: map<Option<string>, seq<Id>>)
    requires Collected(before, builds, ids) && after.Keys == before.Keys
    requires forall t | t in before :: after[t].build == before[t].build
    ensures Collected(after, builds, ids)
  {
  }

  lemma CollectedAt(targets: map<Id, Target>, builds: seq<Option<string>>, ids: map<Option<string>, seq<Id>>, k: nat)
    requires Collected(targets, builds, ids) && k < |builds|
    ensures builds[k] in ids && Lists(builds, ids.Keys)
    ensures forall t :: t in ids[builds[k]] <==> t in targets && targets[t].build == builds[k]
  {
    assert builds[k] in builds;
  }

  lemma NextNumbered(
    before: map<Id, Target>, after: map<Id, Target>,
    builds: seq<Option<string>>, ids: map<Option<string>, seq<Id>>, k: nat)
    requires k < |builds| && Lists(builds, ids.Keys)
    requires NumberedByBuild(before, builds, k)
    requires after.Keys == before.Keys
    requires forall t | t in before :: after[t].build == before[t].build
    requires forall t :: t in ids[builds[k]] <==> t in before && before[t].build == builds[k]
    requires forall t | t in before :: after[t].group == if t in ids[builds[k]] then Some(k) else before[t].group
    ensures NumberedByBuild(after, builds, k + 1)
  {
  }

  lemma AllNumbered(targets: map<Id, Target>, builds: seq<Option<string>>, ids: map<Option<string>, seq<Id>>)
    requires Collected(targets, builds, ids) && NumberedByBuild(targets, builds, |builds|)
    ensures forall t | t in targets :: targets[t].group.Some?
    ensures forall t, u | t in targets && u in targets ::
      targets[t].group == targets[u].group <==> targets[t].build == targets[u].build
    ensures forall g: Id :: g < |builds| <==> Populated(targets, g)
  {
    forall t | t in targets ensures targets[t].build in builds {
      assert targets[t].build in ids.Keys;
    }
    forall g: Id | g < |builds| ensures Populated(targets, g) {
      assert builds[g] in ids.Keys;
      var t := ids[builds[g]][0];
      assert t in ids[builds[g]];
      assert t in targets && targets[t].build == builds[g];
      assert targets[t].group == Some(g);
    }
  }

  lemma NoneNumbered(targets: map<Id, Target>, builds: seq<Option<string>>)
    requires forall t | t in targets :: targets[t].group == None
    ensures NumberedByBuild(targets, builds, 0)
  {
  }

  lemma AllGrouped(before: map<Id, Target>, after: map<Id, Target>)
    requires after.Keys == before.Keys && forall t | t in before :: after[t].build == before[t].build && after[t].group.Some?
    requires forall t, u | t in after && u in after :: after[t].group == after[u].group <==> after[t].build == after[u].build
    ensures GroupedByBuild(before, after)
  {
  }

  lemma AllFollow(before: map<Id, Pipeline>, targets: map<Id, Target>, now: map<Id, Pipeline>, after: map<Id, Pipeline>)
    requires now.Keys == before.Keys && forall p | p in now :: now[p].target == before[p].target
    requires forall p | p in now ::
      now[p].group == if now[p].target.Some? && now[p].target.value in targets then targets[now[p].target.value].group else None
    requires after == map p | p in now :: now[p].(target := None)
    ensures FollowsTarget(before, targets, after)
  {
  }

  /** The upgrade over the columns. */
  lemma UpgradedColumns(
    targets0: map<Id, Target>, pipelines0: map<Id, Pipeline>,
    targets: map<Id, Target>, pipelines: map<Id, Pipeline>, groups: set<Id>)
    requires GroupedByBuild(targets0, targets) && FollowsTarget(pipelines0, targets, pipelines)
    requires forall g :: g in groups <==> Populated(targets, g)
    ensures targets.Keys == targets0.Keys && pipelines.Keys == pipelines0.Keys
    ensures forall t | t in targets ::
              targets[t].build == targets0[t].build && targets[t].group.Some? && targets[t].group.value in groups
    ensures forall t, u | t in targets && u in targets ::
              targets[t].group == targets[u].group <==> targets0[t].build == targets0[u].build
    ensures forall g | g in groups :: exists t :: t in targets && targets[t].group == Some(g)
    ensures forall p | p in pipelines ::
              && pipelines[p].target == None
              && pipelines[p].group == if pipelines0[p].target.Some? && pipelines0[p].target.value in targets
                                       then targets[pipelines0[p].target.value].group else None
  {
    forall t | t in targets ensures targets[t].group.Some? && targets[t].group.value in groups {
      assert targets[t].group == Some(targets[t].group.value);
      assert Populated(targets, targets[t].group.value);
    }
  }

  // ---- Downgrade ----

  /** What the n-th run of a group gets from the targets of the group. */
  function Share(members: seq<Id>, n: nat): Option<Id> {
    if n < |members| then Some(members[n]) else None
  }

  /** `runs` and `members` are what the relationships of every group load. */
  ghost predicate Loaded(
    pipelines: map<Id, Pipeline>, targets: map<Id, Target>, groups: set<Id>,
    runs: map<Id, seq<Id>>, members: map<Id, seq<Id>>)
  {
    forall g | g in groups ::
      && g in runs && Lists(runs[g], set p | p in pipelines && pipelines[p].group == Some(g))
      && g in members && Lists(members[g], set t | t in targets && targets[t].group == Some(g))
  }

  /** Exactly one pipeline points to the target. */
  ghost predicate HasOneRun(pipelines: map<Id, Pipeline>, t: Id) {
    && (exists p :: p in pipelines && pipelines[p].target == Some(t))
    && (forall p, q | p in pipelines && q in pipelines && pipelines[p].target == Some(t) == pipelines[q].target :: p == q)
  }

  /** The n-th run of the group has the n-th target, if there is one, and each target has one run. */
  ghost predicate Dealt(pipelines: map<Id, Pipeline>, runs: seq<Id>, members: seq<Id>) {
    && (forall n | 0 <= n < |runs| :: runs[n] in pipelines && pipelines[runs[n]].target == Share(members, n))
    && (forall t | t in members :: HasOneRun(pipelines, t))
  }

  /** Nothing points to the targets of the group yet. */
  ghost predicate Undealt(pipelines: map<Id, Pipeline>, runs: seq<Id>, members: seq<Id>) {
    && (forall n | 0 <= n < |runs| :: runs[n] in pipelines && pipelines[runs[n]].target == None)
    && (forall p | p in pipelines && pipelines[p].target.Some? :: pipelines[p].target.value !in members)
  }

  /**
   What the downgrade makes of the pipelines: every group is dealt out, pipelines outside all
   groups get nothing, and a new pipeline has a target.
   */
  ghost predicate SplitBack(
    before: map<Id, Pipeline>, groups: set<Id>, runs: map<Id, seq<Id>>, members: map<Id, seq<Id>>,
    after: map<Id, Pipeline>)
    requires groups <= runs.Keys && groups <= members.Keys
  {
    && before.Keys <= after.Keys
    && (forall p | p in after :: after[p].group == None)
    && (forall g | g in groups :: Dealt(after, runs[g], members[g]))
    && (forall p | p in before && before[p].group == None :: after[p].target == None)
    && (forall p | p in after && p !in before :: after[p].target.Some?)
  }

  /** The downgrade over the columns. */
  lemma SplitColumns(
    before: map<Id, Pipeline>, groups: set<Id>, runs: map<Id, seq<Id>>, members: map<Id, seq<Id>>,
    after: map<Id, Pipeline>)
    requires groups <= runs.Keys && groups <= members.Keys
    requires SplitBack(before, groups, runs, members, after)
    ensures forall g, n | g in groups && 0 <= n < |runs[g]| ::
              && runs[g][n] in after
              && after[runs[g][n]].target == if n < |members[g]| then Some(members[g][n]) else None
    ensures forall g, t | g in groups && t in members[g] :: exists p | p in after :: after[p].target == Some(t)
    ensures forall g, t, p, q | g in groups && t in members[g] && p in after && q in after ::
              after[p].target == Some(t) && after[q].target == Some(t) ==> p == q
    ensures forall p | p in before :: p in after && (before[p].group == None ==> after[p].target == None)
    ensures forall p | p in after :: after[p].group == None && (p in before || after[p].target.Some?)
  {
    forall g, t | g in groups && t in members[g] ensures HasOneRun(after, t) {
      assert Dealt(after, runs[g], members[g]);
    }
  }

  /** The same in the middle of the loop over the groups. */
  ghost predicate SplitSoFar(
    before: map<Id, Pipeline>, after: map<Id, Pipeline>, order: seq<Id>,
    runs: map<Id, seq<Id>>, members: map<Id, seq<Id>>, k: nat)
    requires k <= |order| && forall g | g in order :: g in runs && g in members
  {
    && before.Keys <= after.Keys
    && (forall i | 0 <= i < k :: Dealt(after, runs[order[i]], members[order[i]]))
    && (forall i | k <= i < |order| :: Undealt(after, runs[order[i]], members[order[i]]))
    && (forall p | p in before && before[p].group == None :: after[p].target == None)
    && (forall p | p in after && p !in before :: after[p].target.Some?)
  }

  lemma SplitComplete(
    start: map<Id, Pipeline>, dealt: map<Id, Pipeline>, after: map<Id, Pipeline>, groups: set<Id>, order: seq<Id>,
    runs: map<Id, seq<Id>>, members: map<Id, seq<Id>>)
    requires Lists(order, groups) && groups <= runs.Keys && groups <= members.Keys
    requires SplitSoFar(start, dealt, order, runs, members, |order|)
    requires after == map p | p in dealt :: dealt[p].(group := None)
    ensures SplitBack(start, groups, runs, members, after)
  {
    forall g | g in groups ensures Dealt(after, runs[g], members[g]) {
      assert Dealt(dealt, runs[g], members[g]);
      forall t | t in members[g] ensures HasOneRun(after, t) {
        var p :| p in dealt && dealt[p].target == Some(t);
        assert after[p].target == Some(t);
      }
    }
  }

  lemma SplitOfNulled(
    before: map<Id, Pipeline>, start: map<Id, Pipeline>, after: map<Id, Pipeline>, groups: set<Id>,
    runs: map<Id, seq<Id>>, members: map<Id, seq<Id>>)
    requires groups <= runs.Keys && groups <= members.Keys
    requires start == map p | p in before :: before[p].(target := None)
    requires SplitBack(start, groups, runs, members, after)
    ensures SplitBack(before, groups, runs, members, after)
  {
  }

  /** What `Loaded` says of the groups in the order of the loop. */
  ghost predicate Partitioned(
    start: map<Id, Pipeline>, order: seq<Id>, runs: map<Id, seq<Id>>, members: map<Id, seq<Id>>)
    requires forall g | g in order :: g in runs && g in members
  {
    && (forall i | 0 <= i < |order| :: Distinct(runs[order[i]]) && Distinct(members[order[i]]))
    && (forall i, p | 0 <= i < |order| && p in start && start[p].group == None :: p !in runs[order[i]])
    && (forall i, k, p | 0 <= i < |order| && 0 <= k < |order| && i != k && p in runs[order[k]] :: p !in runs[order[i]])
    && (forall i, k, t | 0 <= i < |order| && 0 <= k < |order| && i != k && t in members[order[k]] :: t !in members[order[i]])
  }

  lemma StartsUndealt(
    pipelines: map<Id, Pipeline>, targets: map<Id, Target>, groups: set<Id>, start: map<Id, Pipeline>, order: seq<Id>,
    runs: map<Id, seq<Id>>, members: map<Id, seq<Id>>)
    requires Lists(order, groups) && Loaded(pipelines, targets, groups, runs, members)
    requires start == map p | p in pipelines :: pipelines[p].(target := None)
    ensures Partitioned(start, order, runs, members)
    ensures SplitSoFar(start, start, order, runs, members, 0)
  {
    forall g | g in groups ensures Undealt(start, runs[g], members[g]) {
      assert forall n | 0 <= n < |runs[g]| :: runs[g][n] in runs[g];
    }
  }

  lemma SplitOneMore(
    start: map<Id, Pipeline>, before: map<Id, Pipeline>, after: map<Id, Pipeline>,
    first: Id, next: Id, order: seq<Id>,
    runs: map<Id, seq<Id>>, members: map<Id, seq<Id>>, k: nat)
    requires k < |order| && forall g | g in order :: g in runs && g in members
    requires forall p | p in before :: p < first
    requires SplitSoFar(start, before, order, runs, members, k)
    requires DealtSoFar(before, after, first, next, runs[order[k]], members[order[k]], |runs[order[k]]| + |members[order[k]]|)
    requires Partitioned(start, order, runs, members)
    ensures SplitSoFar(start, after, order, runs, members, k + 1)
  {
    var n := |runs[order[k]]| + |members[order[k]]|;
    AllDealt(before, after, first, next, runs[order[k]], members[order[k]], n);
    forall i | 0 <= i < |order| && i != k
      ensures Dealt(before, runs[order[i]], members[order[i]]) ==> Dealt(after, runs[order[i]], members[order[i]])
      ensures Undealt(before, runs[order[i]], members[order[i]]) ==> Undealt(after, runs[order[i]], members[order[i]])
    {
      OtherGroupsKept(before, after, first, next, runs[order[k]], members[order[k]], n, runs[order[i]], members[order[i]]);
    }
  }

  /**
   The table after `n` rounds of `zip_longest`: the first runs have their targets, and the
   targets beyond the last run have new pipelines, numbered from `first`.
   */
  ghost predicate DealtSoFar(
    before: map<Id, Pipeline>, after: map<Id, Pipeline>, first: Id, next: Id, runs: seq<Id>, members: seq<Id>, n: nat)
  {
    && next == first + Beyond(runs, members, n)
    && (forall p :: p in after <==> p in before || first <= p < next)
    && (forall p | p in before && p !in runs :: after[p] == before[p])
    && (forall i | 0 <= i < |runs| :: runs[i] in before &&
         after[runs[i]] == before[runs[i]].(target := if i < n then Share(members, i) else None))
    && (forall p | first <= p < next :: after[p] == Pipeline(Some(members[|runs| + p - first]), None))
  }

  /** How many of the first `n` targets come after the last run. */
  function Beyond(runs: seq<Id>, members: seq<Id>, n: nat): nat {
    var given := if n < |members| then n else |members|;
    if given > |runs| then given - |runs| else 0
  }

  lemma DealOneMore(
    before: map<Id, Pipeline>, now: map<Id, Pipeline>, after: map<Id, Pipeline>,
    first: Id, next: Id, runs: seq<Id>, members: seq<Id>, n: nat)
    requires Distinct(runs) && forall p | p in before :: p < first
    requires DealtSoFar(before, now, first, next, runs, members, n)
    requires n < |members|
    ensures n < |runs| && after == now[runs[n] := now[runs[n]].(target := Some(members[n]))]
      ==> DealtSoFar(before, after, first, next, runs, members, n + 1)
    ensures n >= |runs| && after == now[next := Pipeline(Some(members[n]), None)]
      ==> DealtSoFar(before, after, first, next + 1, runs, members, n + 1)
  {
  }

  lemma DealNothingMore(
    before: map<Id, Pipeline>, after: map<Id, Pipeline>, first: Id, next: Id, runs: seq<Id>, members: seq<Id>, n: nat)
    requires DealtSoFar(before, after, first, next, runs, members, n)
    requires n >= |members|
    ensures DealtSoFar(before, after, first, next, runs, members, n + 1)
  {
  }

  lemma AllDealt(
    before: map<Id, Pipeline>, after: map<Id, Pipeline>, first: Id, next: Id, runs: seq<Id>, members: seq<Id>, n: nat)
    requires Distinct(runs) && Distinct(members)
    requires Undealt(before, runs, members) && forall p | p in before :: p < first
    requires DealtSoFar(before, after, first, next, runs, members, n) && |runs| <= n && |members| <= n
    ensures Dealt(after, runs, members)
  {
    forall i | 0 <= i < |members| ensures HasOneRun(after, members[i]) {
      var holder := if i < |runs| then runs[i] else first + i - |runs|;
      assert after[holder].target == Some(members[i]);
      forall p | p in after && after[p].target == Some(members[i]) ensures p == holder {
        if p in before && p in runs {
          var k :| 0 <= k < |runs| && runs[k] == p;
        }
      }
    }
  }

  /** Dealing out one group changes nothing for another one. */
  lemma OtherGroupsKept(
    before: map<Id, Pipeline>, after: map<Id, Pipeline>, first: Id, next: Id,
    runs: seq<Id>, members: seq<Id>, n: nat,
    otherRuns: seq<Id>, otherMembers: seq<Id>)
    requires Undealt(before, runs, members) && forall p | p in before :: p < first
    requires DealtSoFar(before, after, first, next, runs, members, n)
    requires forall p | p in runs :: p !in otherRuns
    requires forall t | t in members :: t !in otherMembers
    ensures Dealt(before, otherRuns, otherMembers) ==> Dealt(after, otherRuns, otherMembers)
    ensures Undealt(before, otherRuns, otherMembers) ==> Undealt(after, otherRuns, otherMembers)
  {
  }

  class Database {
    var targets: map<Id, Target>
    var pipelines: map<Id, Pipeline>
    var groups: set<Id>
    /** The sequence behind the primary key of pipelines. */
    var nextPipeline: Id

    /** The defaultdict(list): build ids in order of appearance, and the targets of each. */
    method CollectByBuild(order: seq<Id>) returns (builds: seq<Option<string>>, ids: map<Option<string>, seq<Id>>)
      requires Lists(order, targets.Keys)
      ensures Collected(targets, builds, ids)
      ensures forall b | b in ids :: Distinct(ids[b])
    {
      hide CollectedSoFar, Collected;
      builds, ids := [], map[];
      NothingCollected(targets);
      assert order[..0] == [];
      for i := 0 to |order|
        invariant CollectedSoFar(targets, order[..i], builds, ids)
      {
        var t := order[i];
        var b := targets[t].build;
        assert t !in order[..i];
        assert t in order && order[..i + 1] == order[..i] + [t];
        CollectsOneMore(targets, order[..i], builds, ids, t);
        assert [] + [t] == [t];
        assert ids[b := []][b := [t]] == ids[b := [t]];
        if b !in ids {
          builds := builds + [b];
          ids := ids[b := []];
        }
        ids := ids[b := ids[b] + [t]];
      }
      assert order[..|order|] == order;
      AllCollected(targets, order, builds, ids);
    }

    /** create_table and add_column: the new columns start as nulls. */
    method AddGroupColumns()
      modifies this
      ensures SameRows(old(targets), old(pipelines)) && GroupsFollow()
      ensures groups == {} && forall t | t in targets :: targets[t].group == None
    {
      groups := {};
      targets := map t | t in targets :: targets[t].(group := None);
      pipelines := map p | p in pipelines :: pipelines[p].(group := None);
    }

    /** drop_column */
    method DropTargetColumn()
      modifies this
      ensures targets == old(targets) && groups == old(groups)
      ensures pipelines == map p | p in old(pipelines) :: old(pipelines)[p].(target := None)
    {
      pipelines := map p | p in pipelines :: pipelines[p].(target := None);
    }

    /** target.copr_build_group_id = g, and the same for the pipelines that point to the target. */
    method JoinGroup(g: Id, t: Id)
      requires t in targets && GroupsFollow()
      modifies this
      ensures SameRows(old(targets), old(pipelines)) && GroupsFollow()
      ensures groups == old(groups) && targets == old(targets)[t := old(targets)[t].(group := Some(g))]
    {
      targets := targets[t := targets[t].(group := Some(g))];
      pipelines := map p | p in pipelines ::
        if pipelines[p].target == Some(t) then pipelines[p].(group := Some(g)) else pipelines[p];
    }

    /** One turn of the loop over `groups.values()`: the group, its targets and their pipelines. */
    method MakeGroup(g: Id, members: seq<Id>)
      requires forall t | t in members :: t in targets
      requires GroupsFollow()
      modifies this
      ensures SameRows(old(targets), old(pipelines)) && GroupsFollow()
      ensures groups == old(groups) + {g}
      ensures forall t | t in targets :: targets[t].group == if t in members then Some(g) else old(targets[t].group)
    {
      for i := 0 to |members|
        invariant SameRows(old(targets), old(pipelines)) && GroupsFollow()
        invariant groups == old(groups)
        invariant forall t | t in targets ::
            targets[t].group == if t in members[..i] then Some(g) else old(targets[t].group)
      {
        var t := members[i];
        assert members[..i + 1] == members[..i] + [t];
        JoinGroup(g, t);
      }
      assert members[..|members|] == members;
      groups := groups + {g};
    }

    /** The loop over the dictionary. */
    method MakeGroups(builds: seq<Option<string>>, ids: map<Option<string>, seq<Id>>)
      requires Collected(targets, builds, ids) && GroupsFollow() && groups == {}
      requires forall t | t in targets :: targets[t].group == None
      modifies this
      ensures SameRows(old(targets), old(pipelines)) && GroupsFollow()
      ensures Collected(targets, builds, ids) && NumberedByBuild(targets, builds, |builds|)
      ensures forall g: Id :: g in groups <==> g < |builds|
    {
      hide Collected, Distinct, NumberedByBuild;
      NoneNumbered(targets, builds);
      for k := 0 to |builds|
        invariant SameRows(old(targets), old(pipelines)) && GroupsFollow()
        invariant Collected(targets, builds, ids) && NumberedByBuild(targets, builds, k)
        invariant forall g: Id :: g in groups <==> g < k
      {
        ghost var before := targets;
        CollectedAt(before, builds, ids, k);
        MakeGroup(k, ids[builds[k]]);
        NextNumbered(before, targets, builds, ids, k);
        CollectedStill(before, targets, builds, ids);
      }
    }

    /** upgrade: one group per build id, and every pipeline linked to the group of its target. */
    method Upgrade(order: seq<Id>)
      requires Lists(order, targets.Keys)
      modifies this
      ensures GroupedByBuild(old(targets), targets)
      ensures FollowsTarget(old(pipelines), targets, pipelines)
      ensures forall g :: g in groups <==> Populated(targets, g)
      ensures targets.Keys == old(targets).Keys && pipelines.Keys == old(pipelines).Keys
      ensures forall t | t in targets ::
                targets[t].build == old(targets)[t].build && targets[t].group.Some? && targets[t].group.value in groups
      ensures forall t, u | t in targets && u in targets ::
                targets[t].group == targets[u].group <==> old(targets)[t].build == old(targets)[u].build
      ensures forall g | g in groups :: exists t :: t in targets && targets[t].group == Some(g)
      ensures forall p | p in pipelines ::
                && pipelines[p].target == None
                && pipelines[p].group == if old(pipelines)[p].target.Some? && old(pipelines)[p].target.value in targets
                                         then targets[old(pipelines)[p].target.value].group else None
    {
      hide Collected, Distinct, GroupedByBuild, FollowsTarget, Populated, NumberedByBuild;
      AddGroupColumns();
      var builds, ids := CollectByBuild(order);
      MakeGroups(builds, ids);
      AllNumbered(targets, builds, ids);
      AllGrouped(old(targets), targets);
      ghost var now := pipelines;
      DropTargetColumn();
      AllFollow(old(pipelines), targets, now, pipelines);
      UpgradedColumns(old(targets), old(pipelines), targets, pipelines, groups);
    }

    /** The body of the loop for a target `t`: the n-th run takes it, or a new pipeline. */
    method Give(runs: seq<Id>, n: nat, t: Id)
      requires n < |runs| ==> runs[n] in pipelines
      modifies `pipelines, `nextPipeline
      ensures nextPipeline == if n < |runs| then old(nextPipeline) else old(nextPipeline) + 1
      ensures n < |runs| ==> pipelines == old(pipelines)[runs[n] := old(pipelines)[runs[n]].(target := Some(t))]
      ensures n >= |runs| ==> pipelines == old(pipelines)[old(nextPipeline) := Pipeline(Some(t), None)]
    {
      var p;
      if n < |runs| {
        p := runs[n];
      } else {
        // more targets than runs: the surplus target gets a pipeline of its own
        p := nextPipeline;
        nextPipeline := nextPipeline + 1;
        pipelines := pipelines[p := Pipeline(None, None)];
      }
      pipelines := pipelines[p := pipelines[p].(target := Some(t))];
    }

    /** The loop over `zip_longest` of the runs and the targets of one group. */
    method DealOut(runs: seq<Id>, members: seq<Id>)
      requires Distinct(runs) && Distinct(members)
      requires Undealt(pipelines, runs, members)
      requires forall p | p in pipelines :: p < nextPipeline
      modifies `pipelines, `nextPipeline
      ensures DealtSoFar(old(pipelines), pipelines, old(nextPipeline), nextPipeline, runs, members, |runs| + |members|)
      ensures forall p | p in pipelines :: p < nextPipeline
    {
      var n := 0;
      while n < |runs| || n < |members|
        invariant DealtSoFar(old(pipelines), pipelines, old(nextPipeline), nextPipeline, runs, members, n)
        invariant n <= |runs| + |members|
        decreases |runs| + |members| - n
      {
        ghost var now, next := pipelines, nextPipeline;
        if n < |members| {
          Give(runs, n, members[n]);
          DealOneMore(old(pipelines), now, pipelines, old(nextPipeline), next, runs, members, n);
        } else {
          DealNothingMore(old(pipelines), now, old(nextPipeline), nextPipeline, runs, members, n);
        }
        n := n + 1;
      }
    }

    /** downgrade: the targets of every group are dealt out to its runs. */
    method Downgrade(order: seq<Id>, runs: map<Id, seq<Id>>, members: map<Id, seq<Id>>)
      requires Lists(order, groups) && Loaded(pipelines, targets, groups, runs, members)
      requires forall p | p in pipelines :: p < nextPipeline
      modifies this
      ensures groups == {}
      ensures targets == map t | t in old(targets) :: old(targets)[t].(group := None)
      ensures SplitBack(old(pipelines), old(groups), runs, members, pipelines)
      ensures forall g, n | g in old(groups) && 0 <= n < |runs[g]| ::
                && runs[g][n] in pipelines
                && pipelines[runs[g][n]].target == if n < |members[g]| then Some(members[g][n]) else None
      ensures forall g, t | g in old(groups) && t in members[g] ::
                exists p | p in pipelines :: pipelines[p].target == Some(t)
      ensures forall g, t, p, q | g in old(groups) && t in members[g] && p in pipelines && q in pipelines ::
                pipelines[p].target == Some(t) && pipelines[q].target == Some(t) ==> p == q
      ensures forall p | p in old(pipelines) ::
                p in pipelines && (old(pipelines)[p].group == None ==> pipelines[p].target == None)
      ensures forall p | p in pipelines :: pipelines[p].group == None && (p in old(pipelines) || pipelines[p].target.Some?)
    {
      hide SplitSoFar, Partitioned;
      ghost var start := map p | p in pipelines :: pipelines[p].(target := None);
      StartsUndealt(pipelines, targets, groups, start, order, runs, members);
      // add_column
      pipelines := map p | p in pipelines :: pipelines[p].(target := None);
      DealOutGroups(order, runs, members);
      ghost var dealt := pipelines;
      DropGroupColumns();
      SplitComplete(start, dealt, pipelines, old(groups), order, runs, members);
      SplitOfNulled(old(pipelines), start, pipelines, old(groups), runs, members);
      SplitColumns(old(pipelines), old(groups), runs, members, pipelines);
    }

    /** The loop over the groups. */
    method DealOutGroups(order: seq<Id>, runs: map<Id, seq<Id>>, members: map<Id, seq<Id>>)
      requires forall g | g in order :: g in runs && g in members
      requires Partitioned(pipelines, order, runs, members)
      requires SplitSoFar(pipelines, pipelines, order, runs, members, 0)
      requires forall p | p in pipelines :: p < nextPipeline
      modifies `pipelines, `nextPipeline
      ensures SplitSoFar(old(pipelines), pipelines, order, runs, members, |order|)
    {
      for k := 0 to |order|
        invariant forall p | p in pipelines :: p < nextPipeline
        invariant SplitSoFar(old(pipelines), pipelines, order, runs, members, k)
      {
        ghost var before, first := pipelines, nextPipeline;
        DealOut(runs[order[k]], members[order[k]]);
        SplitOneMore(old(pipelines), before, pipelines, first, nextPipeline, order, runs, members, k);
      }
    }

    /** drop_column and drop_table */
    method DropGroupColumns()
      modifies `targets, `pipelines, `groups
      ensures groups == {}
      ensures targets == map t | t in old(targets) :: old(targets)[t].(group := None)
      ensures pipelines == map p | p in old(pipelines) :: old(pipelines)[p].(group := None)
    {
      targets := map t | t in targets :: targets[t].(group := None);
      pipelines := map p | p in pipelines :: pipelines[p].(group := None);
      groups := {};
    }

    ghost predicate SameRows(targets0: map<Id, Target>, pipelines0: map<Id, Pipeline>)
      reads this
    {
      && targets.Keys == targets0.Keys && (forall t | t in targets :: targets[t].build == targets0[t].build)
      && pipelines.Keys == pipelines0.Keys && (forall p | p in pipelines :: pipelines[p].target == pipelines0[p].target)
    }

    ghost predicate GroupsFollow()
      reads this
    {
      forall p | p in pipelines ::
        pipelines[p].group == if pipelines[p].target.Some? && pipelines[p].target.value in targets
                              then targets[pipelines[p].target.value].group else None
    }
  }

  // ---- Upgrade and then downgrade ----

  /** The rows before the upgrade (0), between the two (1) and after the downgrade (2). */
  ghost predicate RoundTrip(
    targets0: map<Id, Target>, pipelines0: map<Id, Pipeline>,
    targets1: map<Id, Target>, pipelines1: map<Id, Pipeline>, groups: set<Id>,
    runs: map<Id, seq<Id>>, members: map<Id, seq<Id>>, pipelines2: map<Id, Pipeline>)
  {
    && (forall p | p in pipelines0 && pipelines0[p].target.Some? :: pipelines0[p].target.value in targets0)
    && GroupedByBuild(targets0, targets1) && FollowsTarget(pipelines0, targets1, pipelines1)
    && (forall g :: g in groups <==> Populated(targets1, g))
    && Loaded(pipelines1, targets1, groups, runs, members)
    && SplitBack(pipelines1, groups, runs, members, pipelines2)
  }

  /** The pipelines that point to a target of the build. */
  ghost function RunsOf(targets: map<Id, Target>, pipelines: map<Id, Pipeline>, b: Option<string>): set<Id> {
    set p | p in pipelines && pipelines[p].target.Some? && pipelines[p].target.value in targets
            && targets[pipelines[p].target.value].build == b
  }

  ghost function TargetsOf(targets: map<Id, Target>, b: Option<string>): set<Id> {
    set t | t in targets && targets[t].build == b
  }

  /** Every target is pointed to by exactly one pipeline, and an old one points to the build it had. */
  lemma {:induction false} RoundTripKeepsBuilds(
    targets0: map<Id, Target>, pipelines0: map<Id, Pipeline>,
    targets1: map<Id, Target>, pipelines1: map<Id, Pipeline>, groups: set<Id>,
    runs: map<Id, seq<Id>>, members: map<Id, seq<Id>>, pipelines2: map<Id, Pipeline>)
    requires RoundTrip(targets0, pipelines0, targets1, pipelines1, groups, runs, members, pipelines2)
    ensures forall t | t in targets0 ::
      && (exists p :: p in pipelines2 && pipelines2[p].target == Some(t))
      && forall p, q | p in pipelines2 && q in pipelines2 ::
           pipelines2[p].target == Some(t) && pipelines2[q].target == Some(t) ==> p == q
    ensures forall p | p in pipelines0 && pipelines2[p].target.Some? ::
      && pipelines0[p].target.Some? && pipelines2[p].target.value in targets0
      && targets0[pipelines2[p].target.value].build == targets0[pipelines0[p].target.value].build
  {
    forall t | t in targets0 ensures HasOneRun(pipelines2, t) {
      var g := targets1[t].group.value;
      assert Populated(targets1, g);
      assert t in members[g];
    }
    forall p | p in pipelines0 && pipelines2[p].target.Some?
      ensures pipelines0[p].target.Some? && pipelines2[p].target.value in targets0
      ensures targets0[pipelines2[p].target.value].build == targets0[pipelines0[p].target.value].build
    {
      var n := RankOfRun(targets0, pipelines0, targets1, pipelines1, groups, runs, members, pipelines2, p);
      var g := pipelines1[p].group.value;
      assert members[g][n] in members[g];
    }
  }

  /** Where a pipeline with a target is among the runs of its group, and what it gets. */
  lemma RankOfRun(
    targets0: map<Id, Target>, pipelines0: map<Id, Pipeline>,
    targets1: map<Id, Target>, pipelines1: map<Id, Pipeline>, groups: set<Id>,
    runs: map<Id, seq<Id>>, members: map<Id, seq<Id>>, pipelines2: map<Id, Pipeline>, p: Id) returns (n: nat)
    requires RoundTrip(targets0, pipelines0, targets1, pipelines1, groups, runs, members, pipelines2)
    requires p in pipelines0 && (pipelines0[p].target.Some? || pipelines2[p].target.Some?)
    ensures pipelines0[p].target.Some?
    ensures pipelines1[p].group == targets1[pipelines0[p].target.value].group
    ensures pipelines1[p].group.Some? && pipelines1[p].group.value in groups
    ensures n < |runs[pipelines1[p].group.value]| && runs[pipelines1[p].group.value][n] == p
    ensures pipelines2[p].target == Share(members[pipelines1[p].group.value], n)
  {
    assert pipelines1[p].group != None;
    var g := pipelines1[p].group.value;
    assert Populated(targets1, g);
    assert p in runs[g];
    n :| 0 <= n < |runs[g]| && runs[g][n] == p;
  }

  lemma OldRowsAreThere(
    targets0: map<Id, Target>, pipelines0: map<Id, Pipeline>,
    targets1: map<Id, Target>, pipelines1: map<Id, Pipeline>, groups: set<Id>,
    runs: map<Id, seq<Id>>, members: map<Id, seq<Id>>, pipelines2: map<Id, Pipeline>)
    requires RoundTrip(targets0, pipelines0, targets1, pipelines1, groups, runs, members, pipelines2)
    ensures pipelines0.Keys <= pipelines2.Keys
    ensures forall p | p in pipelines0 && pipelines0[p].target.Some? :: pipelines0[p].target.value in targets0
  {
  }

  /** The group of a target has the pipelines and the targets of its build. */
  lemma SizesOfTheGroup(
    targets0: map<Id, Target>, pipelines0: map<Id, Pipeline>,
    targets1: map<Id, Target>, pipelines1: map<Id, Pipeline>, groups: set<Id>,
    runs: map<Id, seq<Id>>, members: map<Id, seq<Id>>, pipelines2: map<Id, Pipeline>, t: Id)
    returns (g: Id)
    requires RoundTrip(targets0, pipelines0, targets1, pipelines1, groups, runs, members, pipelines2)
    requires t in targets0
    ensures t in targets1 && targets1[t].group == Some(g) && g in groups && g in runs && g in members
    ensures |runs[g]| == |RunsOf(targets0, pipelines0, targets0[t].build)|
    ensures |members[g]| == |TargetsOf(targets0, targets0[t].build)|
  {
    g := targets1[t].group.value;
    assert Populated(targets1, g);
    var b := targets0[t].build;
    assert RunsOf(targets0, pipelines0, b) == set p | p in pipelines1 && pipelines1[p].group == Some(g);
    SizeOfList(runs[g], RunsOf(targets0, pipelines0, b));
    assert TargetsOf(targets0, b) == set u | u in targets1 && targets1[u].group == Some(g);
    SizeOfList(members[g], TargetsOf(targets0, b));
  }

  lemma LostLinkMeansCrowdedBuild(
    targets0: map<Id, Target>, pipelines0: map<Id, Pipeline>,
    targets1: map<Id, Target>, pipelines1: map<Id, Pipeline>, groups: set<Id>,
    runs: map<Id, seq<Id>>, members: map<Id, seq<Id>>, pipelines2: map<Id, Pipeline>, p: Id)
    requires RoundTrip(targets0, pipelines0, targets1, pipelines1, groups, runs, members, pipelines2)
    requires p in pipelines0 && p in pipelines2 && pipelines0[p].target.Some? && pipelines2[p].target == None
    ensures pipelines0[p].target.value in targets0
    ensures var b := targets0[pipelines0[p].target.value].build;
            |RunsOf(targets0, pipelines0, b)| > |TargetsOf(targets0, b)|
  {
    hide RoundTrip, RunsOf, TargetsOf;
    OldRowsAreThere(targets0, pipelines0, targets1, pipelines1, groups, runs, members, pipelines2);
    var n := RankOfRun(targets0, pipelines0, targets1, pipelines1, groups, runs, members, pipelines2, p);
    var g := SizesOfTheGroup(targets0, pipelines0, targets1, pipelines1, groups, runs, members, pipelines2, pipelines0[p].target.value);
    assert |runs[g]| > n >= |members[g]|;
  }

  lemma CrowdedBuildLosesALink(
    targets0: map<Id, Target>, pipelines0: map<Id, Pipeline>,
    targets1: map<Id, Target>, pipelines1: map<Id, Pipeline>, groups: set<Id>,
    runs: map<Id, seq<Id>>, members: map<Id, seq<Id>>, pipelines2: map<Id, Pipeline>, t: Id)
    returns (p: Id)
    requires RoundTrip(targets0, pipelines0, targets1, pipelines1, groups, runs, members, pipelines2)
    requires t in targets0
    requires |RunsOf(targets0, pipelines0, targets0[t].build)| > |TargetsOf(targets0, targets0[t].build)|
    ensures p in pipelines0 && p in pipelines2 && pipelines0[p].target.Some? && pipelines2[p].target == None
  {
    var g := SizesOfTheGroup(targets0, pipelines0, targets1, pipelines1, groups, runs, members, pipelines2, t);
    p := runs[g][|members[g]|];
    assert p in runs[g];
    assert pipelines2[p].target == Share(members[g], |members[g]|);
  }

  /**
   No pipeline loses its link for good exactly when no build had more pipelines than targets.
   */
  lemma {:induction false} RoundTripKeepsEveryLinkExactlyWhen(
    targets0: map<Id, Target>, pipelines0: map<Id, Pipeline>,
    targets1: map<Id, Target>, pipelines1: map<Id, Pipeline>, groups: set<Id>,
    runs: map<Id, seq<Id>>, members: map<Id, seq<Id>>, pipelines2: map<Id, Pipeline>)
    requires RoundTrip(targets0, pipelines0, targets1, pipelines1, groups, runs, members, pipelines2)
    ensures (forall p | p in pipelines0 && pipelines0[p].target.Some? :: pipelines2[p].target.Some?)
       <==> (forall t | t in targets0 ::
              |RunsOf(targets0, pipelines0, targets0[t].build)| <= |TargetsOf(targets0, targets0[t].build)|)
  {
    hide RoundTrip, RunsOf, TargetsOf;
    OldRowsAreThere(targets0, pipelines0, targets1, pipelines1, groups, runs, members, pipelines2);
    forall p | p in pipelines0 && pipelines0[p].target.Some? && pipelines2[p].target == None
      ensures exists t | t in targets0 ::
        |RunsOf(targets0, pipelines0, targets0[t].build)| > |TargetsOf(targets0, targets0[t].build)|
    {
      LostLinkMeansCrowdedBuild(targets0, pipelines0, targets1, pipelines1, groups, runs, members, pipelines2, p);
    }
    forall t | t in targets0 && |RunsOf(targets0, pipelines0, targets0[t].build)| > |TargetsOf(targets0, targets0[t].build)|
      ensures exists p | p in pipelines0 && pipelines0[p].target.Some? :: pipelines2[p].target == None
    {
      var p := CrowdedBuildLosesALink(targets0, pipelines0, targets1, pipelines1, groups, runs, members, pipelines2, t);
    }
  }

  /** The runs and targets of the group that a pipeline's target went into. */
  lemma GroupOfRun(
    targets0: map<Id, Target>, pipelines0: map<Id, Pipeline>,
    targets1: map<Id, Target>, pipelines1: map<Id, Pipeline>, groups: set<Id>,
    runs: map<Id, seq<Id>>, members: map<Id, seq<Id>>, pipelines2: map<Id, Pipeline>, p: Id) returns (g: Id)
    requires RoundTrip(targets0, pipelines0, targets1, pipelines1, groups, runs, members, pipelines2)
    requires p in pipelines0 && pipelines0[p].target.Some?
    ensures var b := targets0[pipelines0[p].target.value].build;
            && g in groups && Lists(runs[g], RunsOf(targets0, pipelines0, b)) && Lists(members[g], TargetsOf(targets0, b))
            && Dealt(pipelines2, runs[g], members[g])
  {
    var n := RankOfRun(targets0, pipelines0, targets1, pipelines1, groups, runs, members, pipelines2, p);
    g := pipelines1[p].group.value;
    var b := targets0[pipelines0[p].target.value].build;
    assert RunsOf(targets0, pipelines0, b) == set q | q in pipelines1 && pipelines1[q].group == Some(g);
    assert TargetsOf(targets0, b) == set u | u in targets1 && targets1[u].group == Some(g);
  }

  /** Two pipelines on one build with one target: one of them comes back without a build. */
  lemma {:induction false} SharedTargetIsLost(
    targets1: map<Id, Target>, pipelines1: map<Id, Pipeline>, groups: set<Id>,
    runs: map<Id, seq<Id>>, members: map<Id, seq<Id>>, pipelines2: map<Id, Pipeline>)
    requires RoundTrip(
      map[0 := Target(Some("5"), None)], map[1 := Pipeline(Some(0), None), 2 := Pipeline(Some(0), None)],
      targets1, pipelines1, groups, runs, members, pipelines2)
    ensures {pipelines2[1].target, pipelines2[2].target} == {None, Some(0)}
  {
    var targets0 := map[0 := Target(Some("5"), None)];
    var pipelines0 := map[1 := Pipeline(Some(0), None), 2 := Pipeline(Some(0), None)];
    var g := GroupOfRun(targets0, pipelines0, targets1, pipelines1, groups, runs, members, pipelines2, 1);
    assert RunsOf(targets0, pipelines0, Some("5")) == {1, 2} && TargetsOf(targets0, Some("5")) == {0};
    DealingOneTarget(pipelines2, runs[g], members[g], 1, 2, 0);
  }

  lemma DealingOneTarget(pipelines: map<Id, Pipeline>, runs: seq<Id>, members: seq<Id>, p: Id, q: Id, t: Id)
    requires p != q && Lists(runs, {p, q}) && Lists(members, {t}) && Dealt(pipelines, runs, members)
    ensures p in pipelines && q in pipelines && {pipelines[p].target, pipelines[q].target} == {None, Some(t)}
  {
    SizeOfList(runs, {p, q});
    SizeOfList(members, {t});
    assert members[0] in members && runs[0] in runs && runs[1] in runs;
  }
}
