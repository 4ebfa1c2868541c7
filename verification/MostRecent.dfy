/**
`get_most_recent_targets` and the two filters over it: of all attempts at the same target and
identifier only the one submitted last counts.
*/
module MostRecent {
  import opened Options

  datatype Key = Key(target: string, identifier: Option<string>)

  /** `id` tells apart objects that agree in everything else. */
  datatype Model = Model(id: nat, key: Key, submitted: Option<int>, status: string)

  // ---- The loop ----

  /** The values of a dict, in insertion order; each is found under its own key. */
  function IndexOf(dict: seq<Model>, key: Key): (at: Option<nat>)
    ensures at.Some? ==> at.value < |dict| && dict[at.value].key == key
    ensures at.None? ==> forall n | 0 <= n < |dict| :: dict[n].key != key
  {
    if dict == [] then None
    else if dict[|dict| - 1].key == key then Some(|dict| - 1)
    else IndexOf(dict[..|dict| - 1], key)
  }

  /** One turn of the loop; None is the TypeError of comparing with a null time. */
  function Insert(dict: seq<Model>, model: Model): Option<seq<Model>> {
    var at := IndexOf(dict, model.key);
    if at.None? then Some(dict + [model])
    else if dict[at.value].submitted.None? || model.submitted.None? then None
    else if dict[at.value].submitted.value < model.submitted.value then Some(dict[at.value := model])
    else Some(dict)
  }

  function SelectFrom(dict: seq<Model>, models: seq<Model>): Option<seq<Model>> {
    if models == [] then Some(dict) else
      var before := SelectFrom(dict, models[..|models| - 1]);
      if before.None? then None else Insert(before.value, models[|models| - 1])
  }

  method GetMostRecentTargets(models: seq<Model>) returns (selected: Option<seq<Model>>)
    ensures selected == SelectFrom([], models)
  {
    var mostRecentModels: seq<Model> := [];
    for n := 0 to |models|
      invariant SelectFrom([], models[..n]) == Some(mostRecentModels)
    {
      assert models[..n + 1][..n] == models[..n];
      var model := models[n];
      var at := IndexOf(mostRecentModels, model.key);
      if at.None? {
        mostRecentModels := mostRecentModels + [model];
      } else if mostRecentModels[at.value].submitted.None? || model.submitted.None? {
        RaisingIsFinal([], models, n + 1);
        return None;
      } else if mostRecentModels[at.value].submitted.value < model.submitted.value {
        mostRecentModels := mostRecentModels[at.value := model];
      }
    }
    assert models[..|models|] == models;
    return Some(mostRecentModels);
  }

  lemma {:induction false} RaisingIsFinal(dict: seq<Model>, models: seq<Model>, n: nat)
    requires n <= |models| && SelectFrom(dict, models[..n]).None?
    ensures SelectFrom(dict, models).None?
  {
    if n == |models| {
      assert models[..n] == models;
    } else {
      assert models[..|models| - 1][..n] == models[..n];
      RaisingIsFinal(dict, models[..|models| - 1], n);
    }
  }

  // ---- What it selects ----

  /** Attempt `i` counts for its key: submitted after all others, or listed first among the last. */
  ghost predicate Counts(models: seq<Model>, i: int) {
    && 0 <= i < |models|
    && forall j | 0 <= j < |models| && j != i && models[j].key == models[i].key ::
         && models[i].submitted.Some? && models[j].submitted.Some?
         && (models[j].submitted.value < models[i].submitted.value
             || (models[j].submitted == models[i].submitted && i < j))
  }

  /** The keys in the order of their first occurrence. */
  function Keys(models: seq<Model>): seq<Key> {
    if models == [] then [] else
      var before, key := Keys(models[..|models| - 1]), models[|models| - 1].key;
      if key in before then before else before + [key]
  }

  /** `selected` lists, key by key in order of first occurrence, the attempt that counts. */
  ghost predicate Selection(models: seq<Model>, selected: seq<Model>) {
    && |selected| == |Keys(models)|
    && forall k | 0 <= k < |selected| ::
         selected[k].key == Keys(models)[k] && ModelCounts(models, selected[k])
  }

  ghost predicate ModelCounts(models: seq<Model>, model: Model) {
    exists i :: Counts(models, i) && models[i] == model
  }

  /** Two attempts at one key, one of them without a time. */
  ghost predicate Incomparable(models: seq<Model>) {
    exists i, j | 0 <= i < |models| && 0 <= j < |models| && i != j ::
      models[i].key == models[j].key && models[i].submitted.None?
  }

  lemma {:induction false} KeysAreDistinct(models: seq<Model>)
    ensures forall k, l | 0 <= k < l < |Keys(models)| :: Keys(models)[k] != Keys(models)[l]
    ensures forall key :: key in Keys(models) <==> HasKey(models, key)
  {
    if models != [] {
      var rest, last := models[..|models| - 1], models[|models| - 1];
      KeysAreDistinct(rest);
      assert models == rest + [last];
      forall key ensures HasKey(models, key) <==> HasKey(rest, key) || key == last.key {
        HasKeyExtends(rest, last, key);
      }
    }
  }

  ghost predicate HasKey(models: seq<Model>, key: Key) {
    exists i :: 0 <= i < |models| && models[i].key == key
  }

  lemma HasKeyExtends(rest: seq<Model>, last: Model, key: Key)
    ensures HasKey(rest + [last], key) <==> HasKey(rest, key) || key == last.key
  {
    var models := rest + [last];
    if HasKey(rest, key) {
      var i :| 0 <= i < |rest| && rest[i].key == key;
      assert models[i].key == key;
    }
    if key == last.key {
      assert models[|rest|].key == key;
    }
  }

  lemma CountsStill(rest: seq<Model>, model: Model, i: int)
    requires Counts(rest, i)
    requires rest[i].key == model.key ==>
               rest[i].submitted.Some? && model.submitted.Some? && model.submitted.value <= rest[i].submitted.value
    ensures Counts(rest + [model], i)
  {
  }

  lemma CountsNow(rest: seq<Model>, model: Model, i: int)
    requires Counts(rest, i) && rest[i].key == model.key
    requires rest[i].submitted.Some? && model.submitted.Some? && rest[i].submitted.value < model.submitted.value
    ensures Counts(rest + [model], |rest|)
  {
  }

  /** The dict has a model for exactly the keys seen so far. */
  lemma KeysOfSelection(models: seq<Model>, selected: seq<Model>, key: Key)
    requires Selection(models, selected)
    ensures IndexOf(selected, key).Some? <==> HasKey(models, key)
    ensures IndexOf(selected, key).Some? <==> key in Keys(models)
  {
    KeysAreDistinct(models);
    var at := IndexOf(selected, key);
    if at.Some? {
      assert Keys(models)[at.value] == key;
    }
    if key in Keys(models) {
      var k :| 0 <= k < |Keys(models)| && Keys(models)[k] == key;
      assert selected[k].key == key;
    }
  }

  /** What becomes of the entry of an old key. */
  lemma OldEntryExtends(rest: seq<Model>, before: seq<Model>, model: Model, k: nat)
    requires Selection(rest, before) && Insert(before, model).Some? && k < |before|
    ensures var after := Insert(before, model).value;
            k < |after| && after[k].key == before[k].key && ModelCounts(rest + [model], after[k])
  {
    var models, after := rest + [model], Insert(before, model).value;
    var i :| Counts(rest, i) && rest[i] == before[k];
    KeysAreDistinct(rest);
    var at := IndexOf(before, model.key);
    if at == Some(k) {
      if before[k].submitted.value < model.submitted.value {
        CountsNow(rest, model, i);
        assert models[|rest|] == after[k];
      } else {
        CountsStill(rest, model, i);
        assert models[i] == after[k];
      }
    } else {
      assert at.Some? ==> Keys(rest)[at.value] == model.key;
      assert before[k].key != model.key;
      CountsStill(rest, model, i);
      assert models[i] == after[k];
    }
  }

  lemma NewEntryCounts(rest: seq<Model>, model: Model)
    requires !HasKey(rest, model.key)
    ensures ModelCounts(rest + [model], model)
  {
    var models := rest + [model];
    assert forall j | 0 <= j < |rest| :: models[j].key == rest[j].key;
    assert Counts(models, |rest|) && models[|rest|] == model;
  }

  lemma SelectionExtends(rest: seq<Model>, before: seq<Model>, model: Model)
    requires Selection(rest, before) && Insert(before, model).Some?
    ensures Selection(rest + [model], Insert(before, model).value)
  {
    var models, after := rest + [model], Insert(before, model).value;
    assert models[..|rest|] == rest;
    KeysOfSelection(rest, before, model.key);
    forall k | 0 <= k < |after| ensures after[k].key == Keys(models)[k] && ModelCounts(models, after[k]) {
      if k < |before| {
        OldEntryExtends(rest, before, model, k);
      } else {
        NewEntryCounts(rest, model);
      }
    }
  }

  lemma IncomparableExtends(rest: seq<Model>, model: Model)
    ensures Incomparable(rest + [model]) <==>
            || Incomparable(rest)
            || exists i | 0 <= i < |rest| :: rest[i].key == model.key && (rest[i].submitted.None? || model.submitted.None?)
  {
    var models := rest + [model];
    if Incomparable(rest) {
      var i, j :| 0 <= i < |rest| && 0 <= j < |rest| && i != j && rest[i].key == rest[j].key && rest[i].submitted.None?;
      assert models[i].key == models[j].key && models[i].submitted.None?;
    }
    if i :| 0 <= i < |rest| && rest[i].key == model.key && (rest[i].submitted.None? || model.submitted.None?) {
      assert models[i].key == models[|rest|].key;
    }
    if Incomparable(models) {
      var i, j :| 0 <= i < |models| && 0 <= j < |models| && i != j
                  && models[i].key == models[j].key && models[i].submitted.None?;
      var other := if i < |rest| then i else j;
      assert rest[other].key == models[other].key;
      assert i < |rest| && j < |rest| ==> rest[i].key == rest[j].key && rest[i].submitted.None?;
    }
  }

  lemma InsertRaisesWhen(rest: seq<Model>, before: seq<Model>, model: Model)
    requires Selection(rest, before) && !Incomparable(rest)
    ensures Insert(before, model).None? <==> Incomparable(rest + [model])
  {
    IncomparableExtends(rest, model);
    KeysOfSelection(rest, before, model.key);
    var at := IndexOf(before, model.key);
    if at.Some? {
      var c :| Counts(rest, c) && rest[c] == before[at.value];
      assert rest[c].key == model.key;
      if i :| 0 <= i < |rest| && rest[i].key == model.key && rest[i].submitted.None? {
        assert rest[c].key == rest[i].key;
      }
    }
  }

  /**
   The loop raises exactly when two attempts at one key cannot be compared, and else selects what
   counts.
   */
  lemma {:induction false} LoopSelects(models: seq<Model>)
    ensures SelectFrom([], models).None? <==> Incomparable(models)
    ensures SelectFrom([], models).Some? ==> Selection(models, SelectFrom([], models).value)
  {
    if models != [] {
      var rest, model := models[..|models| - 1], models[|models| - 1];
      assert models == rest + [model];
      LoopSelects(rest);
      var before := SelectFrom([], rest);
      if before.Some? {
        InsertRaisesWhen(rest, before.value, model);
        if Insert(before.value, model).Some? {
          SelectionExtends(rest, before.value, model);
        }
      } else {
        IncomparableExtends(rest, model);
      }
    }
  }

  /** A selection is determined by its models. */
  lemma {:induction false} OneSelection(models: seq<Model>, s: seq<Model>, t: seq<Model>)
    requires Selection(models, s) && Selection(models, t)
    ensures s == t
  {
  }

  // ---- Selecting in portions ----

  lemma {:induction false} SelectFromConcat(dict: seq<Model>, xs: seq<Model>, ys: seq<Model>)
    ensures SelectFrom(dict, xs + ys) ==
            var first := SelectFrom(dict, xs); if first.None? then None else SelectFrom(first.value, ys)
  {
    if ys == [] {
      assert xs + ys == xs;
    } else {
      assert (xs + ys)[..|xs + ys| - 1] == xs + ys[..|ys| - 1];
      SelectFromConcat(dict, xs, ys[..|ys| - 1]);
    }
  }

  ghost predicate DistinctKeys(models: seq<Model>) {
    forall k, l | 0 <= k < l < |models| :: models[k].key != models[l].key
  }

  lemma {:induction false} DistinctKeysStay(models: seq<Model>)
    requires DistinctKeys(models)
    ensures SelectFrom([], models) == Some(models)
  {
    if models != [] {
      var rest, last := models[..|models| - 1], models[|models| - 1];
      DistinctKeysStay(rest);
      assert IndexOf(rest, last.key).None?;
      assert rest + [last] == models;
    }
  }

  lemma {:induction false} SelectionHasDistinctKeys(models: seq<Model>)
    ensures SelectFrom([], models).Some? ==> DistinctKeys(SelectFrom([], models).value)
  {
    LoopSelects(models);
    KeysAreDistinct(models);
  }

  /** Old attempts can be reduced to what counts of them before new ones are added. */
  lemma {:induction false} SelectionIsIncremental(xs: seq<Model>, ys: seq<Model>)
    ensures SelectFrom([], xs + ys) ==
            var first := SelectFrom([], xs); if first.None? then None else SelectFrom([], first.value + ys)
  {
    SelectFromConcat([], xs, ys);
    var first := SelectFrom([], xs);
    if first.Some? {
      SelectionHasDistinctKeys(xs);
      DistinctKeysStay(first.value);
      SelectFromConcat([], first.value, ys);
    }
  }

  // ---- The filters ----

  function ModelsByStatus(selected: seq<Model>, statuses: set<string>): set<Model> {
    set m | m in selected && m.status in statuses
  }

  /** The names, or None instead of an empty set. */
  function NamesByStatus(selected: seq<Model>, statuses: set<string>): Option<set<Key>> {
    var models := ModelsByStatus(selected, statuses);
    if models == {} then None else Some(set m | m in models :: m.key)
  }

  /** A key is named exactly when the attempt that counts for it has one of the statuses. */
  lemma {:induction false} NamesFollowTheLastAttempt(models: seq<Model>, statuses: set<string>, key: Key)
    requires !Incomparable(models)
    ensures SelectFrom([], models).Some?
    ensures var names := NamesByStatus(SelectFrom([], models).value, statuses);
            names.Some? && key in names.value <==>
            exists i :: Counts(models, i) && models[i].key == key && models[i].status in statuses
  {
    LoopSelects(models);
    var selected := SelectFrom([], models).value;
    var kept, names := ModelsByStatus(selected, statuses), NamesByStatus(selected, statuses);
    if i :| Counts(models, i) && models[i].key == key && models[i].status in statuses {
      var k := EntryOf(models, selected, i);
      assert selected[k] in kept;
    }
    if names.Some? && key in names.value {
      var m :| m in kept && m.key == key;
      assert ModelCounts(models, m);
    }
  }

  /** An attempt that counts is selected. */
  lemma EntryOf(models: seq<Model>, selected: seq<Model>, i: int) returns (k: nat)
    requires Selection(models, selected) && Counts(models, i)
    ensures k < |selected| && selected[k] == models[i]
  {
    KeysOfSelection(models, selected, models[i].key);
    k := IndexOf(selected, models[i].key).value;
    var j :| Counts(models, j) && models[j] == selected[k];
    assert models[i].key == models[j].key;
  }
}
