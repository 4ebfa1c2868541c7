/**
`break_lines_in_text`: lines that are too long are broken at separators.  The text comes as the
lines that `splitlines` makes of it; which characters are white space is a parameter.
*/
module LineBreaker {
  import opened Options
  import opened Strings

  // ---- Filling lines ----

  /** The groups of parts on the finished lines, and the group of the line that is being filled. */
  datatype Filling = Filling(closed: seq<seq<string>>, open: seq<string>)
  {
    ghost predicate Valid() {
      open != [] && forall i | 0 <= i < |closed| :: closed[i] != []
    }

    function Parts(): seq<string> {
      Flatten(closed) + open
    }

    /** The group of line `i`. */
    function Line(i: nat): seq<string>
      requires i <= |closed|
    {
      if i < |closed| then closed[i] else open
    }

    /** All lines but the last keep the separator that follows. */
    function Chunks(sep: string): seq<string> {
      Closed(closed, sep) + [Join(sep, open)]
    }
  }

  function Flatten(groups: seq<seq<string>>): seq<string> {
    if groups == [] then [] else Flatten(groups[..|groups| - 1]) + groups[|groups| - 1]
  }

  function Closed(groups: seq<seq<string>>, sep: string): (chunks: seq<string>)
    ensures |chunks| == |groups|
  {
    if groups == [] then [] else Closed(groups[..|groups| - 1], sep) + [Join(sep, groups[|groups| - 1]) + sep]
  }

  /** A part joins the line if it fits. */
  function AddPart(f: Filling, part: string, sep: string, width: int): Filling {
    if |Join(sep, f.open)| + |part| < width
    then Filling(f.closed, f.open + [part])
    else Filling(f.closed + [f.open], [part])
  }

  function Fill(parts: seq<string>, sep: string, width: int): (f: Filling)
    requires parts != []
    ensures f.Valid()
  {
    if |parts| == 1 then Filling([], parts)
    else AddPart(Fill(parts[..|parts| - 1], sep, width), parts[|parts| - 1], sep, width)
  }

  function Concat(chunks: seq<string>): string {
    if chunks == [] then "" else Concat(chunks[..|chunks| - 1]) + chunks[|chunks| - 1]
  }

  function LeadingSpaces(line: string, isSpace: char -> bool): (n: nat)
    ensures n <= |line|
  {
    if line != "" && isSpace(line[0]) then 1 + LeadingSpaces(line[1..], isSpace) else 0
  }

  function Spaces(n: nat): (s: string)
    ensures |s| == n
  {
    seq(n, _ => ' ')
  }

  function Pieces(line: string, sep: string, width: int): seq<string>
    requires sep != ""
  {
    Fill(Split(line, sep), sep, width).Chunks(sep)
  }

  /** The inner loop: the pieces of a line without its leading white space. */
  method BreakLine(line: string, sep: string, width: int) returns (newLines: seq<string>)
    requires sep != ""
    ensures newLines == Pieces(line, sep, width)
  {
    var parts := Split(line, sep);
    newLines := [];
    var newLine := parts[0];
    assert parts[..1] == [parts[0]];
    ghost var f := Fill(parts[..1], sep, width);
    for n := 1 to |parts|
      invariant f == Fill(parts[..n], sep, width)
      invariant newLines == Closed(f.closed, sep) && newLine == Join(sep, f.open)
    {
      var part := parts[n];
      FillExtends(parts, n, sep, width);
      AddPartLines(f, part, sep, width);
      f := AddPart(f, part, sep, width);
      if |newLine| + |part| < width {
        newLine := newLine + sep + part;
      } else {
        newLines := newLines + [newLine + sep];
        newLine := part;
      }
    }
    assert parts[..|parts|] == parts;
    newLines := newLines + [newLine];
  }

  lemma FillExtends(parts: seq<string>, n: nat, sep: string, width: int)
    requires 0 < n < |parts|
    ensures Fill(parts[..n + 1], sep, width) == AddPart(Fill(parts[..n], sep, width), parts[n], sep, width)
  {
    assert parts[..n + 1][..n] == parts[..n];
  }

  /** What adding a part does to the finished lines and to the open one. */
  lemma AddPartLines(f: Filling, part: string, sep: string, width: int)
    requires f.Valid()
    ensures var g := AddPart(f, part, sep, width);
            if |Join(sep, f.open)| + |part| < width
            then g.closed == f.closed && Join(sep, g.open) == Join(sep, f.open) + sep + part
            else Closed(g.closed, sep) == Closed(f.closed, sep) + [Join(sep, f.open) + sep] && Join(sep, g.open) == part
  {
  }

  /** leading_spaces + line + newline, for every piece, one after the other. */
  function Rendered(chunks: seq<string>, lead: nat): string {
    if chunks == [] then "" else Rendered(chunks[..|chunks| - 1], lead) + Spaces(lead) + chunks[|chunks| - 1] + "\n"
  }

  /** What becomes of one line of the text. */
  function Broken(line: string, sep: string, maxLineLength: int, isSpace: char -> bool): string
    requires sep != ""
  {
    if |line| <= maxLineLength then line else
      var lead := LeadingSpaces(line, isSpace);
      Rendered(Pieces(line[lead..], sep, maxLineLength - lead), lead)
  }

  function BrokenLines(lines: seq<string>, sep: string, maxLineLength: int, isSpace: char -> bool): seq<string>
    requires sep != ""
  {
    if lines == [] then [] else
      BrokenLines(lines[..|lines| - 1], sep, maxLineLength, isSpace) +
      [Broken(lines[|lines| - 1], sep, maxLineLength, isSpace)]
  }

  method BreakLongLine(line: string, sep: string, maxLineLength: int, isSpace: char -> bool) returns (broken: string)
    requires sep != ""
    ensures broken == Broken(line, sep, maxLineLength, isSpace)
  {
    hide Pieces, Rendered, LeadingSpaces;
    broken := line;
    if |line| > maxLineLength {
      var lead := LeadingSpaces(line, isSpace);
      var newLines := BreakLine(line[lead..], sep, maxLineLength - lead);
      broken := Rendered(newLines, lead);
    }
  }

  method BreakLinesInText(lines: seq<string>, sep: string, maxLineLength: int, isSpace: char -> bool)
    returns (text: string)
    requires sep != ""
    ensures text == Join("\n", BrokenLines(lines, sep, maxLineLength, isSpace))
  {
    var splitText := [];
    for n := 0 to |lines|
      invariant splitText == BrokenLines(lines[..n], sep, maxLineLength, isSpace)
    {
      assert lines[..n + 1][..n] == lines[..n];
      var line := BreakLongLine(lines[n], sep, maxLineLength, isSpace);
      splitText := splitText + [line];
    }
    assert lines[..|lines|] == lines;
    text := Join("\n", splitText);
  }

  // ---- The indentation ----

  /** The leading white space is the longest prefix of white space. */
  lemma {:induction false} LeadingSpacesAreAll(line: string, isSpace: char -> bool, n: nat)
    requires n <= |line| && (forall i | 0 <= i < n :: isSpace(line[i])) && (n < |line| ==> !isSpace(line[n]))
    ensures LeadingSpaces(line, isSpace) == n
  {
    if n > 0 {
      LeadingSpacesAreAll(line[1..], isSpace, n - 1);
    }
  }

  lemma {:induction false} RenderedIsIndented(chunks: seq<string>, lead: nat, indented: seq<string>)
    requires |indented| == |chunks|
    requires forall i | 0 <= i < |chunks| ::
               && |indented[i]| == lead + |chunks[i]| + 1 && (forall j | 0 <= j < lead :: indented[i][j] == ' ')
               && indented[i][lead..] == chunks[i] + "\n"
    ensures Rendered(chunks, lead) == Concat(indented)
  {
    if chunks != [] {
      var n := |chunks| - 1;
      RenderedIsIndented(chunks[..n], lead, indented[..n]);
      assert indented[n][..lead] == Spaces(lead);
      assert indented[n] == indented[n][..lead] + indented[n][lead..];
      assert Spaces(lead) + (chunks[n] + "\n") == indented[n];
      Regroup(Rendered(chunks[..n], lead), Spaces(lead), chunks[n] + "\n");
      Regroup(Rendered(chunks[..n], lead) + Spaces(lead), chunks[n], "\n");
    }
  }

  /**
  What a long line becomes: the pieces of the rest behind its `lead` white-space characters, each
  behind as many blanks and in front of a line break.
  */
  lemma {:induction false} BrokenLineIsIndented(
    line: string, sep: string, maxLineLength: int, isSpace: char -> bool, lead: nat, indented: seq<string>)
    requires sep != "" && |line| > maxLineLength
    requires lead <= |line| && (forall i | 0 <= i < lead :: isSpace(line[i])) && (lead < |line| ==> !isSpace(line[lead]))
    requires var pieces := Pieces(line[lead..], sep, maxLineLength - lead);
             && |indented| == |pieces|
             && forall i | 0 <= i < |pieces| ::
                  && |indented[i]| == lead + |pieces[i]| + 1 && (forall j | 0 <= j < lead :: indented[i][j] == ' ')
                  && indented[i][lead..] == pieces[i] + "\n"
    ensures Broken(line, sep, maxLineLength, isSpace) == Concat(indented)
  {
    LeadingSpacesAreAll(line, isSpace, lead);
    RenderedIsIndented(Pieces(line[lead..], sep, maxLineLength - lead), lead, indented);
    hide Pieces, Rendered, Concat, LeadingSpaces;
  }

  // ---- What Fill promises ----

  lemma AddPartKeepsParts(f: Filling, part: string, sep: string, width: int)
    requires f.Valid()
    ensures AddPart(f, part, sep, width).Parts() == f.Parts() + [part]
  {
  }

  lemma {:induction false} FillKeepsTheParts(parts: seq<string>, sep: string, width: int)
    requires parts != []
    ensures Fill(parts, sep, width).Parts() == parts
  {
    if |parts| == 1 {
      SinglePart(parts);
    } else {
      FillKeepsTheParts(parts[..|parts| - 1], sep, width);
      AddPartKeepsParts(Fill(parts[..|parts| - 1], sep, width), parts[|parts| - 1], sep, width);
      LastPart(parts);
    }
  }

  lemma SinglePart(parts: seq<string>)
    ensures Filling([], parts).Parts() == parts
  {
  }

  lemma {:induction false} ClosedConcat(groups: seq<seq<string>>, sep: string)
    requires groups != [] && forall i | 0 <= i < |groups| :: groups[i] != []
    ensures Flatten(groups) != []
    ensures Concat(Closed(groups, sep)) == Join(sep, Flatten(groups)) + sep
  {
    var rest, last := groups[..|groups| - 1], groups[|groups| - 1];
    assert Closed(groups, sep)[..|groups| - 1] == Closed(rest, sep);
    if rest == [] {
      assert Flatten(groups) == last;
    } else {
      ClosedConcat(rest, sep);
      JoinConcat(sep, Flatten(rest), last);
    }
  }

  lemma {:induction false} ChunksConcat(f: Filling, sep: string)
    requires f.Valid()
    ensures Concat(f.Chunks(sep)) == Join(sep, f.Parts())
  {
    assert f.Chunks(sep)[..|f.closed|] == Closed(f.closed, sep);
    if f.closed == [] {
      SinglePart(f.open);
    } else {
      ClosedConcat(f.closed, sep);
      JoinConcat(sep, Flatten(f.closed), f.open);
    }
  }

  /** The pieces, one after the other, are the line that was broken. */
  lemma {:induction false} NothingIsLost(line: string, sep: string, width: int)
    requires sep != ""
    ensures Concat(Pieces(line, sep, width)) == line
  {
    ChunksConcat(Fill(Split(line, sep), sep, width), sep);
    FillKeepsTheParts(Split(line, sep), sep, width);
    JoinAfterSplit(line, sep);
  }

  /** Every part after the first of its line did fit when it came. */
  ghost predicate Fits(group: seq<string>, sep: string, width: int) {
    forall n | 0 < n < |group| :: |Join(sep, group[..n])| + |group[n]| < width
  }

  ghost predicate AllFit(f: Filling, sep: string, width: int) {
    Fits(f.open, sep, width) && forall i | 0 <= i < |f.closed| :: Fits(f.closed[i], sep, width)
  }

  /** No finished line had room for the first part of the next one. */
  ghost predicate AllFull(f: Filling, sep: string, width: int)
    requires f.Valid()
  {
    forall i | 0 <= i < |f.closed| :: |Join(sep, f.closed[i])| + |f.Line(i + 1)[0]| >= width
  }

  lemma FitsOneMore(group: seq<string>, part: string, sep: string, width: int)
    requires group != []
    ensures Fits(group + [part], sep, width) <==> Fits(group, sep, width) && |Join(sep, group)| + |part| < width
  {
    var more := group + [part];
    assert more[..|group|] == group && more[|group|] == part;
    assert forall n | 0 < n < |group| :: more[..n] == group[..n] && more[n] == group[n];
  }

  lemma {:induction false} AddingFitsAndIsFull(f: Filling, part: string, sep: string, width: int)
    requires f.Valid() && AllFit(f, sep, width) && AllFull(f, sep, width)
    ensures var g := AddPart(f, part, sep, width); AllFit(g, sep, width) && AllFull(g, sep, width)
  {
    FitsOneMore(f.open, part, sep, width);
    var g := AddPart(f, part, sep, width);
    forall i | 0 <= i < |g.closed| ensures Fits(g.closed[i], sep, width) {
      assert i < |f.closed| ==> g.closed[i] == f.closed[i];
    }
    forall i | 0 <= i < |g.closed| ensures |Join(sep, g.closed[i])| + |g.Line(i + 1)[0]| >= width {
      assert i < |f.closed| ==> g.closed[i] == f.closed[i] && g.Line(i + 1)[0] == f.Line(i + 1)[0];
    }
  }

  lemma {:induction false} FillFitsAndIsFull(parts: seq<string>, sep: string, width: int)
    requires parts != []
    ensures AllFit(Fill(parts, sep, width), sep, width) && AllFull(Fill(parts, sep, width), sep, width)
  {
    if |parts| > 1 {
      hide AllFit, AllFull, AddPart;
      FillFitsAndIsFull(parts[..|parts| - 1], sep, width);
      AddingFitsAndIsFull(Fill(parts[..|parts| - 1], sep, width), parts[|parts| - 1], sep, width);
    }
  }

  /** Filling is the only way to group the parts in which everything fits and every line is full. */
  lemma {:induction false} FillIsTheOnlyFullFit(f: Filling, sep: string, width: int)
    requires f.Valid()
    ensures f.Parts() != [] && (Fill(f.Parts(), sep, width) == f <==> AllFit(f, sep, width) && AllFull(f, sep, width))
  {
    if AllFit(f, sep, width) && AllFull(f, sep, width) {
      FullFitIsFill(f, sep, width);
    }
    FillFitsAndIsFull(f.Parts(), sep, width);
  }

  lemma {:induction false} FullFitIsFill(f: Filling, sep: string, width: int)
    requires f.Valid() && AllFit(f, sep, width) && AllFull(f, sep, width)
    ensures f.Parts() != [] && Fill(f.Parts(), sep, width) == f
    decreases |f.closed|, |f.open|
  {
    if |f.open| > 1 || f.closed != [] {
      var before := Before(f, sep, width);
      FullFitIsFill(before, sep, width);
      assert f.Parts()[..|f.Parts()| - 1] == before.Parts();
    } else {
      assert f.Parts() == f.open;
    }
  }

  /** The filling without its last part. */
  lemma Before(f: Filling, sep: string, width: int) returns (before: Filling)
    requires f.Valid() && AllFit(f, sep, width) && AllFull(f, sep, width)
    requires |f.open| > 1 || f.closed != []
    ensures before.Valid() && AllFit(before, sep, width) && AllFull(before, sep, width)
    ensures f == AddPart(before, f.open[|f.open| - 1], sep, width)
    ensures f.Parts() == before.Parts() + [f.open[|f.open| - 1]]
    ensures (before.closed == f.closed && |before.open| < |f.open|) || |before.closed| < |f.closed|
  {
    var part := f.open[|f.open| - 1];
    if |f.open| > 1 {
      before := Filling(f.closed, f.open[..|f.open| - 1]);
      assert f.open == before.open + [part];
      FitsOneMore(before.open, part, sep, width);
      FullSoFar(f, before, sep, width);
    } else {
      before := Filling(f.closed[..|f.closed| - 1], f.closed[|f.closed| - 1]);
      assert f.closed == before.closed + [before.open];
      FullBefore(f, before, sep, width);
      assert f.Line(|before.closed| + 1)[0] == part;
    }
    AddPartKeepsParts(before, part, sep, width);
  }

  lemma FullSoFar(f: Filling, before: Filling, sep: string, width: int)
    requires f.Valid() && before.Valid() && AllFull(f, sep, width)
    requires f.closed == before.closed && f.open[0] == before.open[0]
    ensures AllFull(before, sep, width)
  {
  }

  lemma FullBefore(f: Filling, before: Filling, sep: string, width: int)
    requires f.Valid() && before.Valid() && AllFull(f, sep, width)
    requires f.closed == before.closed + [before.open]
    ensures AllFull(before, sep, width)
  {
    forall i | 0 <= i < |before.closed| ensures |Join(sep, before.closed[i])| + |before.Line(i + 1)[0]| >= width {
      assert f.closed[i] == before.closed[i] && f.Line(i + 1) == before.Line(i + 1);
    }
  }

  /** A line is a single part that cannot be split, or at most 2 * |sep| - 1 longer than the maximum. */
  lemma {:induction false} PiecesAreShort(line: string, sep: string, maxLineLength: int, lead: nat, i: nat)
    requires sep != ""
    requires i <= |Fill(Split(line, sep), sep, maxLineLength - lead).closed|
    ensures var f := Fill(Split(line, sep), sep, maxLineLength - lead);
            || (|f.Line(i)| == 1 && Unsplittable(f.Line(i)[0], sep)
                && f.Chunks(sep)[i] == f.Line(i)[0] + if i < |f.closed| then sep else "")
            || lead + |f.Chunks(sep)[i]| <= maxLineLength - 1 + 2 * |sep|
  {
    var width := maxLineLength - lead;
    var f := Fill(Split(line, sep), sep, width);
    FillFitsAndIsFull(Split(line, sep), sep, width);
    ChunkOfLine(f, sep, i);
    var group := f.Line(i);
    if |group| == 1 {
      FillKeepsTheParts(Split(line, sep), sep, width);
      LineIsInParts(f, i);
      PartsAreUnsplittable(line, sep);
    } else {
      var n := |group| - 1;
      assert |Join(sep, group[..n])| + |group[n]| < width;
    }
  }

  lemma {:induction false} ClosedAt(groups: seq<seq<string>>, sep: string, i: nat)
    requires i < |groups|
    ensures Closed(groups, sep)[i] == Join(sep, groups[i]) + sep
  {
    if i < |groups| - 1 {
      ClosedAt(groups[..|groups| - 1], sep, i);
    }
  }

  lemma ChunkOfLine(f: Filling, sep: string, i: nat)
    requires i <= |f.closed|
    ensures f.Chunks(sep)[i] == Join(sep, f.Line(i)) + if i < |f.closed| then sep else ""
  {
    if i < |f.closed| {
      ClosedAt(f.closed, sep, i);
    }
  }

  lemma {:induction false} GroupIsInFlatten(groups: seq<seq<string>>, i: nat)
    requires i < |groups|
    ensures forall part | part in groups[i] :: part in Flatten(groups)
  {
    if i < |groups| - 1 {
      GroupIsInFlatten(groups[..|groups| - 1], i);
    }
  }

  lemma LineIsInParts(f: Filling, i: nat)
    requires i <= |f.closed|
    ensures forall part | part in f.Line(i) :: part in f.Parts()
  {
    if i < |f.closed| {
      GroupIsInFlatten(f.closed, i);
    }
  }

  // ---- When the maximum is met ----

  function Lengths(parts: seq<string>): (lengths: seq<nat>)
    ensures |lengths| == |parts|
  {
    seq(|parts|, i requires 0 <= i < |parts| => |parts[i]|)
  }

  /**
  Read off the lengths of the parts alone, `open` being that of the line so far: a line that gets
  no further part leaves room for the separator that is put behind it.  The code's own guard does
  not count the separator in front of the part nor the one behind it, so a part may be accepted
  that the line has no room for.
  */
  predicate MeetsMaximum(open: int, lengths: seq<nat>, sep: nat, width: int)
    decreases |lengths|
  {
    if lengths == [] then open <= width
    else if open + lengths[0] < width then MeetsMaximum(open + sep + lengths[0], lengths[1..], sep, width)
    else open + sep <= width && MeetsMaximum(lengths[0], lengths[1..], sep, width)
  }

  ghost predicate AllWithin(chunks: seq<string>, width: int) {
    forall i | 0 <= i < |chunks| :: |chunks[i]| <= width
  }

  lemma OneMoreWithin(chunks: seq<string>, chunk: string, width: int)
    ensures AllWithin(chunks + [chunk], width) <==> AllWithin(chunks, width) && |chunk| <= width
  {
    var more := chunks + [chunk];
    assert more[|chunks|] == chunk && forall i | 0 <= i < |chunks| :: more[i] == chunks[i];
  }

  /** One round of the loop is one step of the recursion. */
  lemma {:induction false} RoundMeetsMaximum(f: Filling, rest: seq<string>, sep: string, width: int)
    requires f.Valid() && rest != []
    ensures var g := AddPart(f, rest[0], sep, width);
            (AllWithin(Closed(f.closed, sep), width) && MeetsMaximum(|Join(sep, f.open)|, Lengths(rest), |sep|, width)) <==>
            (AllWithin(Closed(g.closed, sep), width) && MeetsMaximum(|Join(sep, g.open)|, Lengths(rest[1..]), |sep|, width))
  {
    hide Join, Closed, AllWithin;
    AddPartLines(f, rest[0], sep, width);
    OneMoreWithin(Closed(f.closed, sep), Join(sep, f.open) + sep, width);
    assert Lengths(rest)[0] == |rest[0]| && Lengths(rest)[1..] == Lengths(rest[1..]);
  }

  /** From part `n` on the recursion sees what the loop still does. */
  lemma {:induction false} RestMeetsMaximum(parts: seq<string>, n: nat, sep: string, width: int)
    requires 0 < n <= |parts|
    ensures var f := Fill(parts[..n], sep, width);
            AllWithin(Fill(parts, sep, width).Chunks(sep), width) <==>
              && AllWithin(Closed(f.closed, sep), width)
              && MeetsMaximum(|Join(sep, f.open)|, Lengths(parts[n..]), |sep|, width)
    decreases |parts| - n
  {
    hide Join, Closed, AllWithin, Fill, AddPart;
    var f := Fill(parts[..n], sep, width);
    if n == |parts| {
      assert parts[..n] == parts && parts[n..] == [];
      OneMoreWithin(Closed(f.closed, sep), Join(sep, f.open), width);
    } else {
      hide MeetsMaximum;
      assert parts[n..][0] == parts[n] && parts[n..][1..] == parts[n + 1..];
      FillExtends(parts, n, sep, width);
      RoundMeetsMaximum(f, parts[n..], sep, width);
      RestMeetsMaximum(parts, n + 1, sep, width);
    }
  }

  /** The documented maximum holds exactly for the lines whose part lengths meet it. */
  lemma {:induction false} MaximumIsMetExactlyWhen(line: string, sep: string, maxLineLength: int, lead: nat)
    requires sep != ""
    ensures var parts := Split(line, sep);
            AllWithin(Pieces(line, sep, maxLineLength - lead), maxLineLength - lead) <==>
            MeetsMaximum(|parts[0]|, Lengths(parts[1..]), |sep|, maxLineLength - lead)
  {
    hide *;
    PartsMeetMaximum(Split(line, sep), sep, maxLineLength - lead);
    PiecesAreChunks(line, sep, maxLineLength - lead);
  }

  lemma PiecesAreChunks(line: string, sep: string, width: int)
    requires sep != ""
    ensures Pieces(line, sep, width) == Fill(Split(line, sep), sep, width).Chunks(sep)
  {
    hide Split, Fill, Filling.Chunks;
  }

  lemma {:induction false} PartsMeetMaximum(parts: seq<string>, sep: string, width: int)
    requires parts != []
    ensures AllWithin(Fill(parts, sep, width).Chunks(sep), width) <==>
            MeetsMaximum(|parts[0]|, Lengths(parts[1..]), |sep|, width)
  {
    hide *;
    RestMeetsMaximum(parts, 1, sep, width);
    assert parts[..1] == [parts[0]];
    FillOne(parts[0], sep, width);
  }

  lemma FillOne(part: string, sep: string, width: int)
    ensures Fill([part], sep, width) == Filling([], [part]) && Join(sep, [part]) == part && AllWithin(Closed([], sep), width)
  {
  }

  /**
  The same for one piece: it is too long exactly when its last part was accepted in the window that
  the guard leaves open for the separators, or when it is a single part without room for its own.
  */
  lemma {:induction false} PieceIsTooLongExactlyWhen(line: string, sep: string, width: int, i: nat)
    requires sep != "" && i <= |Fill(Split(line, sep), sep, width).closed|
    ensures var f := Fill(Split(line, sep), sep, width);
            var group, behind := f.Line(i), if i < |f.closed| then |sep| else 0;
            && group != [] && i < |Pieces(line, sep, width)|
            && var last := |group| - 1;
               |Pieces(line, sep, width)[i]| > width <==>
                 if last == 0 then |group[0]| > width - behind
                 else width - |sep| - behind < |Join(sep, group[..last])| + |group[last]| < width
  {
    var f := Fill(Split(line, sep), sep, width);
    FillFitsAndIsFull(Split(line, sep), sep, width);
    ChunkOfLine(f, sep, i);
    var group := f.Line(i);
    if |group| > 1 {
      var n := |group| - 1;
      assert |Join(sep, group[..n])| + |group[n]| < width;
    }
  }

  // ---- Lines that exceed it ----

  function Times(x: char, n: nat): (s: string)
    ensures |s| == n
  {
    seq(n, _ => x)
  }

  lemma NotAtTheStart(s: string, sep: string)
    requires sep != "" && s != "" && s[0] !in sep
    ensures !StartsWith(s, sep)
  {
    assert sep[0] in sep;
  }

  lemma {:induction false} FindBehind(x: char, n: nat, sep: string, rest: string)
    requires sep != "" && x !in sep
    ensures Find(Times(x, n) + sep + rest, sep) == Some(n)
  {
    var s := Times(x, n) + sep + rest;
    if n == 0 {
      assert s[..|sep|] == sep;
    } else {
      assert s[0] == x && s[1..] == Times(x, n - 1) + sep + rest;
      NotAtTheStart(s, sep);
      FindBehind(x, n - 1, sep, rest);
      hide Times, StartsWith;
    }
  }

  lemma {:induction false} SplitBehind(x: char, n: nat, sep: string, rest: string)
    requires sep != "" && x !in sep
    ensures Split(Times(x, n) + sep + rest, sep) == [Times(x, n)] + Split(rest, sep)
  {
    var s := Times(x, n) + sep + rest;
    FindBehind(x, n, sep, rest);
    assert s[..n] == Times(x, n) && s[n + |sep|..] == rest;
  }

  lemma {:induction false} SplitOne(x: char, sep: string)
    requires sep != "" && x !in sep
    ensures Split([x], sep) == [[x]]
  {
    assert sep[0] in sep && [x][1..] == "" && Find("", sep) == None;
  }

  /** The line of a long, a short and a short part. */
  function ThreeParts(x: char, sep: string, maxLineLength: int): string
    requires maxLineLength >= 3
  {
    Times(x, maxLineLength - 2) + sep + ([x] + sep + [x])
  }

  lemma {:induction false} ThreePartsSplit(x: char, sep: string, maxLineLength: int)
    requires sep != "" && x !in sep && maxLineLength >= 3
    ensures Split(ThreeParts(x, sep, maxLineLength), sep) == [Times(x, maxLineLength - 2), [x], [x]]
  {
    SplitBehind(x, maxLineLength - 2, sep, [x] + sep + [x]);
    assert Times(x, 1) == [x];
    SplitBehind(x, 1, sep, [x]);
    SplitOne(x, sep);
  }

  /** Two parts share the first line, whose two separators are not counted. */
  lemma {:induction false} ThreePartsFill(parts: seq<string>, sep: string, width: int)
    requires |parts| == 3 && |parts[0]| == width - 2 && |parts[1]| == 1 && |parts[2]| == 1
    ensures Fill(parts, sep, width).Chunks(sep) == [parts[0] + sep + parts[1] + sep, parts[2]]
  {
    var one, two := [parts[0]], [parts[0], parts[1]];
    assert parts[..1] == one && parts[..2] == two && parts[..3] == parts && one + [parts[1]] == two;
    FillExtends(parts, 1, sep, width);
    assert Fill(one, sep, width) == Filling([], one);
    AddPartLines(Filling([], one), parts[1], sep, width);
    FillExtends(parts, 2, sep, width);
    AddPartLines(Filling([], two), parts[2], sep, width);
  }

  lemma RenderTwo(first: string, second: string)
    ensures Rendered([first, second], 0) == first + "\n" + second + "\n"
  {
    assert [first, second][..1] == [first] && [first][..0] == [] && Spaces(0) == "";
    assert Rendered([first], 0) == first + "\n";
    Regroup(first + "\n", second, "\n");
  }

  lemma NoLeadingSpaces(x: char, sep: string, maxLineLength: int, isSpace: char -> bool)
    requires maxLineLength >= 3 && !isSpace(x)
    ensures LeadingSpaces(ThreeParts(x, sep, maxLineLength), isSpace) == 0
  {
  }

  /**
  The documented maximum is not always met: for every separator and every maximum from 3 on there
  is a line that the function breaks into pieces one of which is 2 * |sep| - 1 longer.
  */
  lemma {:induction false} MaximumCanBeExceeded(sep: string, maxLineLength: int, x: char, isSpace: char -> bool)
    requires sep != "" && x !in sep && !isSpace(x) && maxLineLength >= 3
    ensures var line := ThreeParts(x, sep, maxLineLength);
            var piece := Times(x, maxLineLength - 2) + sep + [x] + sep;
            && |piece| == maxLineLength - 1 + 2 * |sep| > maxLineLength
            && Pieces(line, sep, maxLineLength) == [piece, [x]]
            && Broken(line, sep, maxLineLength, isSpace) == piece + "\n" + [x] + "\n"
  {
    var line := ThreeParts(x, sep, maxLineLength);
    var parts := [Times(x, maxLineLength - 2), [x], [x]];
    var piece := Times(x, maxLineLength - 2) + sep + [x] + sep;
    ThreePartsSplit(x, sep, maxLineLength);
    ThreePartsFill(parts, sep, maxLineLength);
    NoLeadingSpaces(x, sep, maxLineLength, isSpace);
    assert line[0..] == line;
    RenderTwo(piece, [x]);
    hide Times, Split, Fill, Rendered;
  }

  /** Short lines stay as they are. */
  lemma {:induction false} ShortLinesStay(lines: seq<string>, sep: string, maxLineLength: int, isSpace: char -> bool)
    requires sep != "" && forall i | 0 <= i < |lines| :: |lines[i]| <= maxLineLength
    ensures BrokenLines(lines, sep, maxLineLength, isSpace) == lines
  {
    if lines != [] {
      ShortLinesStay(lines[..|lines| - 1], sep, maxLineLength, isSpace);
    }
  }
}
