/** The string methods that the modelled code relies on: split, join and rsplit. */
module Strings {
  import opened Options

  predicate StartsWith(s: string, sep: string) {
    |sep| <= |s| && s[..|sep|] == sep
  }

  /** Where `sep` first occurs. */
  function Find(s: string, sep: string): (at: Option<nat>)
    ensures at.Some? ==> at.value + |sep| <= |s| && s[at.value..at.value + |sep|] == sep
  {
    if StartsWith(s, sep) then Some(0)
    else if s == "" then None
    else
      var at := Find(s[1..], sep);
      if at.None? then None else Some(at.value + 1)
  }

  /** s.split(sep); Python refuses an empty separator with a ValueError. */
  function Split(s: string, sep: string): (parts: seq<string>)
    requires sep != ""
    ensures parts != []
    decreases |s|
  {
    var at := Find(s, sep);
    if at.None? then [s] else [s[..at.value]] + Split(s[at.value + |sep|..], sep)
  }

  /** sep.join(parts) */
  function Join(sep: string, parts: seq<string>): string {
    if parts == [] then ""
    else if |parts| == 1 then parts[0]
    else Join(sep, parts[..|parts| - 1]) + sep + parts[|parts| - 1]
  }

  lemma JoinOneMore(sep: string, parts: seq<string>, last: string)
    requires parts != []
    ensures Join(sep, parts + [last]) == Join(sep, parts) + sep + last
  {
  }

  lemma LastPart(parts: seq<string>)
    requires parts != []
    ensures parts[..|parts| - 1] + [parts[|parts| - 1]] == parts
  {
  }

  lemma {:induction false} JoinConcat(sep: string, first: seq<string>, second: seq<string>)
    requires first != [] && second != []
    ensures Join(sep, first + second) == Join(sep, first) + sep + Join(sep, second)
  {
    var rest, last := second[..|second| - 1], second[|second| - 1];
    LastPart(second);
    if rest == [] {
      OnePart(second);
      JoinOneMore(sep, first, last);
    } else {
      JoinConcat(sep, first, rest);
      Regroup(first, rest, [last]);
      JoinOneMore(sep, first + rest, last);
      JoinOneMore(sep, rest, last);
      Regroup(Join(sep, first) + sep, Join(sep, rest), sep + last);
      Regroup(Join(sep, first) + sep + Join(sep, rest), sep, last);
      Regroup(Join(sep, rest), sep, last);
    }
  }

  lemma OnePart(parts: seq<string>)
    requires |parts| == 1
    ensures parts == [parts[0]]
  {
  }

  lemma Regroup<T>(a: seq<T>, b: seq<T>, c: seq<T>)
    ensures a + b + c == a + (b + c)
  {
  }

  lemma CutInThree(s: string, i: nat, j: nat)
    requires i <= j <= |s|
    ensures s == s[..i] + s[i..j] + s[j..]
  {
  }

  lemma {:induction false} JoinAfterSplit(s: string, sep: string)
    requires sep != ""
    ensures Join(sep, Split(s, sep)) == s
    decreases |s|
  {
    var at := Find(s, sep);
    if at.Some? {
      var first, rest := s[..at.value], s[at.value + |sep|..];
      JoinAfterSplit(rest, sep);
      JoinConcat(sep, [first], Split(rest, sep));
      CutInThree(s, at.value, at.value + |sep|);
    }
  }

  predicate OccursAt(s: string, sep: string, i: nat) {
    i + |sep| <= |s| && s[i..i + |sep|] == sep
  }

  /** `sep` does not occur. */
  ghost predicate Unsplittable(s: string, sep: string) {
    forall i: nat :: !OccursAt(s, sep, i)
  }

  lemma {:induction false} FindFindsTheFirst(s: string, sep: string, i: nat)
    requires sep != "" && OccursAt(s, sep, i)
    ensures Find(s, sep).Some? && Find(s, sep).value <= i
  {
    if !StartsWith(s, sep) {
      assert i > 0;
      assert s[1..][i - 1..i - 1 + |sep|] == s[i..i + |sep|];
      FindFindsTheFirst(s[1..], sep, i - 1);
    }
  }

  lemma {:induction false} NotBeforeTheFirst(s: string, sep: string, end: nat)
    requires sep != "" && end <= |s| && (Find(s, sep).Some? ==> Find(s, sep).value == end)
    ensures Unsplittable(s[..end], sep)
  {
    forall i: nat ensures !OccursAt(s[..end], sep, i) {
      if OccursAt(s[..end], sep, i) {
        assert s[..end][i..i + |sep|] == s[i..i + |sep|];
        FindFindsTheFirst(s, sep, i);
      }
    }
  }

  lemma {:induction false} PartsAreUnsplittable(s: string, sep: string)
    requires sep != ""
    ensures forall part | part in Split(s, sep) :: Unsplittable(part, sep)
    decreases |s|
  {
    hide Unsplittable, Find;
    var at := Find(s, sep);
    NotBeforeTheFirst(s, sep, if at.Some? then at.value else |s|);
    assert s[..|s|] == s;
    if at.Some? {
      PartsAreUnsplittable(s[at.value + |sep|..], sep);
    }
  }

  /** s.rsplit(c, 1): what is before and after the last `c`, if there is one. */
  function CutLast(s: string, c: char): (cut: Option<(string, string)>)
    ensures cut.Some? ==> s == cut.value.0 + [c] + cut.value.1 && c !in cut.value.1
    ensures cut.None? ==> c !in s
  {
    if s == "" then None
    else if s[|s| - 1] == c then
      assert s == s[..|s| - 1] + [c] + [];
      Some((s[..|s| - 1], []))
    else
      var rest := CutLast(s[..|s| - 1], c);
      if rest.None? then None
      else
        assert s == s[..|s| - 1] + [s[|s| - 1]];
        Some((rest.value.0, rest.value.1 + [s[|s| - 1]]))
  }
}
