/**
Pipelines that share an SRPM are shown as one run, under the smallest of their ids.  The list of
runs groups all pipelines; a single run is found by grouping only a window of 101 ids.
*/
module MergedRuns {
  import opened Listings
  import opened Options

  type Id = nat

  /** The SRPM of every pipeline. */
  type Pipelines = map<Id, Option<Id>>

  /** A row of the query: the arrays are collected over the members. */
  datatype Row = Row(mergedId: Id, srpm: Option<Id>, members: set<Id>)

  /** GROUP BY srpm_build_id, CASE WHEN srpm_build_id IS NOT NULL THEN 0 ELSE id END */
  function Key(pipelines: Pipelines, p: Id): (Option<Id>, Id)
    requires p in pipelines
  {
    (pipelines[p], if pipelines[p].Some? then 0 else p)
  }

  function Group(pipelines: Pipelines, window: set<Id>, p: Id): set<Id>
    requires window <= pipelines.Keys && p in pipelines
  {
    set q | q in window && Key(pipelines, q) == Key(pipelines, p)
  }

  ghost function Min(s: set<Id>): (m: Id)
    requires s != {}
    ensures m in s && forall x | x in s :: m <= x
  {
    var x :| x in s;
    if s == {x} then x else
      var others := s - {x};
      assert forall y | y in s :: y == x || y in others;
      var rest := Min(others);
      if x < rest then x else rest
  }

  ghost function RowOf(pipelines: Pipelines, window: set<Id>, p: Id): Row
    requires window <= pipelines.Keys && p in window
  {
    var group := Group(pipelines, window, p);
    assert p in group;
    Row(Min(group), pipelines[p], group)
  }

  ghost function Rows(pipelines: Pipelines, window: set<Id>): set<Row>
    requires window <= pipelines.Keys
  {
    set p | p in window :: RowOf(pipelines, window, p)
  }

  /** get_merged_chroots without its slice: ORDER BY merged_id DESC */
  ghost predicate MergedListing(pipelines: Pipelines, listing: seq<Row>) {
    && Lists(listing, Rows(pipelines, pipelines.Keys))
    && forall i, j | 0 <= i < j < |listing| :: listing[i].mergedId >= listing[j].mergedId
  }

  function Window(pipelines: Pipelines, first: Id): set<Id> {
    set p | p in pipelines && first <= p <= first + 100
  }

  /** get_merged_run: ORDER BY merged_id ASC, and the first row, if any. */
  ghost predicate MergedRun(pipelines: Pipelines, first: Id, run: Option<Row>) {
    var rows := Rows(pipelines, Window(pipelines, first));
    if run.None? then rows == {}
    else run.value in rows && forall row | row in rows :: run.value.mergedId <= row.mergedId
  }

  /** Every pipeline is in exactly one run of the list; two share it exactly when they share an SRPM. */
  lemma {:induction false} ListingPartitionsThePipelines(pipelines: Pipelines, listing: seq<Row>, p: Id, q: Id)
    requires MergedListing(pipelines, listing) && p in pipelines && q in pipelines
    ensures exists i :: 0 <= i < |listing| && p in listing[i].members
    ensures forall i, j | 0 <= i < |listing| && 0 <= j < |listing| && p in listing[i].members && p in listing[j].members :: i == j
    ensures (exists i :: 0 <= i < |listing| && p in listing[i].members && q in listing[i].members) <==>
            p == q || (pipelines[p].Some? && pipelines[p] == pipelines[q])
  {
    var all := pipelines.Keys;
    var row := RowOf(pipelines, all, p);
    assert row in Rows(pipelines, all);
    var n :| 0 <= n < |listing| && listing[n] == row;
    assert p in listing[n].members;
    forall i | 0 <= i < |listing| && p in listing[i].members ensures listing[i] == row {
      assert listing[i] in Rows(pipelines, all);
      var o :| o in all && listing[i] == RowOf(pipelines, all, o);
      assert Group(pipelines, all, o) == Group(pipelines, all, p);
    }
    if p == q || (pipelines[p].Some? && pipelines[p] == pipelines[q]) {
      assert q in listing[n].members;
    }
  }

  /** The list begins with the run whose smallest id is largest, and goes down from there; each run shows its smallest id. */
  lemma {:induction false} ListingIsNewestFirst(pipelines: Pipelines, listing: seq<Row>, i: nat, j: nat)
    requires MergedListing(pipelines, listing) && i < j < |listing|
    ensures listing[i].mergedId > listing[j].mergedId
    ensures listing[i].mergedId in listing[i].members && forall p | p in listing[i].members :: listing[i].mergedId <= p
  {
    var all := pipelines.Keys;
    assert listing[i] in Rows(pipelines, all) && listing[j] in Rows(pipelines, all);
    var o :| o in all && listing[i] == RowOf(pipelines, all, o);
    var q :| q in all && listing[j] == RowOf(pipelines, all, q);
    ListingPartitionsThePipelines(pipelines, listing, listing[i].mergedId, listing[i].mergedId);
  }

  /** There is such a list. */
  lemma {:induction false} ListingExists(pipelines: Pipelines) returns (listing: seq<Row>)
    ensures MergedListing(pipelines, listing)
  {
    listing := Descending(Rows(pipelines, pipelines.Keys));
  }

  lemma {:induction false} Descending(rows: set<Row>) returns (listing: seq<Row>)
    ensures Lists(listing, rows) && forall i, j | 0 <= i < j < |listing| :: listing[i].mergedId >= listing[j].mergedId
  {
    if rows == {} {
      listing := [];
    } else {
      var last := Lowest(rows);
      var before := Descending(rows - {last});
      listing := before + [last];
      assert forall row :: row in listing <==> row in before || row == last;
      assert forall i | 0 <= i < |before| :: listing[i] == before[i] && before[i] in rows;
    }
  }

  lemma {:induction false} Lowest(rows: set<Row>) returns (low: Row)
    requires rows != {}
    ensures low in rows && forall row | row in rows :: low.mergedId <= row.mergedId
  {
    var x :| x in rows;
    if rows == {x} {
      low := x;
    } else {
      var other := Lowest(rows - {x});
      low := if x.mergedId < other.mergedId then x else other;
      assert forall row | row in rows :: row == x || row in rows - {x};
    }
  }

  /** And the search has an answer. */
  lemma {:induction false} MergedRunExists(pipelines: Pipelines, first: Id) returns (run: Option<Row>)
    ensures MergedRun(pipelines, first, run)
  {
    var rows := Rows(pipelines, Window(pipelines, first));
    if rows == {} {
      run := None;
    } else {
      var low := Lowest(rows);
      run := Some(low);
    }
  }

  /** For any id: the run found starts at the smallest id in the window, with what the window shows of its group. */
  lemma {:induction false} WindowShowsItsFirstGroup(pipelines: Pipelines, first: Id, run: Option<Row>)
    requires MergedRun(pipelines, first, run)
    ensures run.None? <==> Window(pipelines, first) == {}
    ensures run.Some? ==>
              var window := Window(pipelines, first);
              && run.value.mergedId == Min(window) && run.value == RowOf(pipelines, window, Min(window))
  {
    var window := Window(pipelines, first);
    if window != {} {
      var m := Min(window);
      var row := RowOf(pipelines, window, m);
      assert row in Rows(pipelines, window);
      assert row.mergedId == m by {
        assert m in Group(pipelines, window, m);
      }
      var o :| o in window && run.value == RowOf(pipelines, window, o);
      assert run.value.mergedId == m;
      assert Key(pipelines, m) == Key(pipelines, o);
      assert Group(pipelines, window, o) == Group(pipelines, window, m);
    }
  }

  /** The same over the columns: the run of the smallest id among the 101 from `first` on, with what is there of its SRPM. */
  lemma {:induction false} MergedRunExactly(pipelines: Pipelines, first: Id, run: Option<Row>)
    requires MergedRun(pipelines, first, run)
    ensures run.None? <==> forall p | p in pipelines :: p < first || p > first + 100
    ensures run.Some? ==>
              var m := run.value.mergedId;
              && m in pipelines && first <= m <= first + 100 && run.value.srpm == pipelines[m]
              && (forall p | p in pipelines && first <= p <= first + 100 :: m <= p)
              && forall q :: q in run.value.members <==>
                   && q in pipelines && first <= q <= first + 100
                   && (q == m || (pipelines[q].Some? && pipelines[q] == pipelines[m]))
  {
    WindowShowsItsFirstGroup(pipelines, first, run);
    hide MergedRun;
    var window := Window(pipelines, first);
    assert window == {} <==> forall p | p in pipelines :: p < first || p > first + 100 by {
      if p :| p in pipelines && first <= p <= first + 100 {
        assert p in window;
      }
    }
    if run.Some? {
      var m := Min(window);
      assert m in window && run.value.mergedId == m;
      assert run.value.members == Group(pipelines, window, m);
      forall q ensures q in run.value.members <==>
        && q in pipelines && first <= q <= first + 100
        && (q == m || (pipelines[q].Some? && pipelines[q] == pipelines[m]))
      {
        assert q in window <==> q in pipelines && first <= q <= first + 100;
      }
    }
  }

  /**
   A run of the list is found again under its merged id, with those of its members that are at most
   100 ids later: all of them exactly when its last id is.
   */
  lemma {:induction false} RunsAreFoundByTheirMergedId(pipelines: Pipelines, listing: seq<Row>, i: nat, run: Option<Row>)
    requires MergedListing(pipelines, listing) && i < |listing|
    requires MergedRun(pipelines, listing[i].mergedId, run)
    ensures run.Some? && run.value.mergedId == listing[i].mergedId && run.value.srpm == listing[i].srpm
    ensures run.value.members == set q | q in listing[i].members && q <= listing[i].mergedId + 100
    ensures run.value == listing[i] <==> forall q | q in listing[i].members :: q <= listing[i].mergedId + 100
  {
    var all, m := pipelines.Keys, listing[i].mergedId;
    assert listing[i] in Rows(pipelines, all);
    var o :| o in all && listing[i] == RowOf(pipelines, all, o);
    assert m in Group(pipelines, all, o);
    assert m in Window(pipelines, m);
    WindowShowsItsFirstGroup(pipelines, m, run);
    assert Min(Window(pipelines, m)) == m;
    forall q: Id ensures q in run.value.members <==> q in listing[i].members && q <= m + 100 {
      assert q in Group(pipelines, all, o) ==> m <= q;
    }
  }

  /** Two pipelines of one SRPM more than 100 ids apart: the run comes back without the second. */
  lemma {:induction false} DistantPipelinesAreCutOff(listing: seq<Row>, run: Option<Row>)
    requires MergedListing(map[1 := Some(7), 102 := Some(7)], listing)
    requires MergedRun(map[1 := Some(7), 102 := Some(7)], 1, run)
    ensures listing == [Row(1, Some(7), {1, 102})] && run == Some(Row(1, Some(7), {1}))
  {
    var pipelines: Pipelines := map[1 := Some(7), 102 := Some(7)];
    assert Group(pipelines, pipelines.Keys, 1) == {1, 102} == Group(pipelines, pipelines.Keys, 102);
    var row := Row(1, Some(7), {1, 102});
    assert RowOf(pipelines, pipelines.Keys, 1) == row == RowOf(pipelines, pipelines.Keys, 102);
    assert Rows(pipelines, pipelines.Keys) == {row};
    SizeOfList(listing, {row});
    assert listing[0] in listing;
    RunsAreFoundByTheirMergedId(pipelines, listing, 0, run);
  }
}
