/**
 Un-applying review hunks (clients/vscode/hunks.js, `rejectHunks`).

 A file is reverted by splicing the selected hunks out of its current lines, the
 hunk furthest down first. The reference the code is held to does no splicing at
 all: it cuts original and current file into the same unchanged gaps and changed
 chunks, and picks the old or the new side of every chunk.
 */
module HunkRejection {
  import opened Wrappers
  import opened Lines

  datatype Hunk = Hunk(index: nat, header: string, oldStart: nat, newStart: nat, lines: seq<string>)

  predicate IsContext(line: string) { |line| > 0 && line[0] == ' ' }
  predicate IsAdded(line: string) { |line| > 0 && line[0] == '+' }
  predicate IsRemoved(line: string) { |line| > 0 && line[0] == '-' }

  /** The hunk's lines as the current file has them. */
  function NewSide(lines: seq<string>): seq<string> {
    if lines == [] then []
    else (if IsContext(lines[0]) || IsAdded(lines[0]) then [lines[0][1..]] else []) + NewSide(lines[1..])
  }

  /** The hunk's lines as the original file had them. */
  function OldSide(lines: seq<string>): seq<string> {
    if lines == [] then []
    else (if IsContext(lines[0]) || IsRemoved(lines[0]) then [lines[0][1..]] else []) + OldSide(lines[1..])
  }

  function Offset(hunk: Hunk): nat {
    if hunk.newStart == 0 then 0 else hunk.newStart - 1
  }

  function Clamp(n: nat, max: nat): nat { if n <= max then n else max }

  /** `lines.slice(from, to)`: both ends are clamped to the length. */
  function Slice<T>(lines: seq<T>, from: nat, to: nat): seq<T>
    requires from <= to
  {
    lines[Clamp(from, |lines|)..Clamp(to, |lines|)]
  }

  /** `lines.splice(at, count, ...insert)`. */
  function Splice<T>(lines: seq<T>, at: nat, count: nat, insert: seq<T>): seq<T> {
    lines[..Clamp(at, |lines|)] + insert + lines[Clamp(at + count, |lines|)..]
  }

  predicate Matches(lines: seq<string>, hunk: Hunk) {
    Slice(lines, Offset(hunk), Offset(hunk) + |NewSide(hunk.lines)|) == NewSide(hunk.lines)
  }

  function Revert(lines: seq<string>, hunk: Hunk): seq<string> {
    Splice(lines, Offset(hunk), |NewSide(hunk.lines)|, OldSide(hunk.lines))
  }

  /** Reverting hunks one after the other, stopping at the first that does not match. */
  function RevertAll(lines: seq<string>, hunks: seq<Hunk>): Result<seq<string>, string>
    decreases hunks
  {
    if hunks == [] then Ok(lines)
    else if !Matches(lines, hunks[0]) then Err(hunks[0].header)
    else RevertAll(Revert(lines, hunks[0]), hunks[1..])
  }

  // ----- The stable sort by descending newStart

  function InsertDescending(hunk: Hunk, sorted: seq<Hunk>): seq<Hunk> {
    if sorted == [] || sorted[0].newStart <= hunk.newStart then [hunk] + sorted
    else [sorted[0]] + InsertDescending(hunk, sorted[1..])
  }

  function SortDescending(hunks: seq<Hunk>): seq<Hunk> {
    if hunks == [] then [] else InsertDescending(hunks[0], SortDescending(hunks[1..]))
  }

  ghost predicate Descending(hunks: seq<Hunk>) {
    forall i, j :: 0 <= i < j < |hunks| ==> hunks[i].newStart >= hunks[j].newStart
  }

  ghost predicate StrictlyDescending(hunks: seq<Hunk>) {
    forall i, j :: 0 <= i < j < |hunks| ==> hunks[i].newStart > hunks[j].newStart
  }

  lemma {:induction false} InsertKeepsAll(hunk: Hunk, sorted: seq<Hunk>)
    ensures multiset(InsertDescending(hunk, sorted)) == multiset{hunk} + multiset(sorted)
    ensures forall h :: h in InsertDescending(hunk, sorted) ==> h == hunk || h in sorted
  {
    if sorted != [] && sorted[0].newStart > hunk.newStart {
      InsertKeepsAll(hunk, sorted[1..]);
      assert sorted == [sorted[0]] + sorted[1..];
    }
  }

  lemma {:induction false} InsertKeepsOrder(hunk: Hunk, sorted: seq<Hunk>)
    requires Descending(sorted)
    ensures Descending(InsertDescending(hunk, sorted))
    ensures multiset(InsertDescending(hunk, sorted)) == multiset{hunk} + multiset(sorted)
  {
    InsertKeepsAll(hunk, sorted);
    if sorted != [] && sorted[0].newStart > hunk.newStart {
      InsertKeepsOrder(hunk, sorted[1..]);
      InsertKeepsAll(hunk, sorted[1..]);
      var rest := InsertDescending(hunk, sorted[1..]);
      assert forall h :: h in rest ==> h.newStart <= sorted[0].newStart;
      PrependDescends(sorted[0], rest);
    } else {
      assert forall h :: h in sorted ==> h.newStart <= hunk.newStart;
      PrependDescends(hunk, sorted);
    }
  }

  lemma PrependDescends(first: Hunk, rest: seq<Hunk>)
    requires Descending(rest) && forall h :: h in rest ==> h.newStart <= first.newStart
    ensures Descending([first] + rest)
  {
    assert forall j :: 0 <= j < |rest| ==> rest[j] in rest;
  }

  lemma {:induction false} SortIsSorted(hunks: seq<Hunk>)
    ensures Descending(SortDescending(hunks))
    ensures multiset(SortDescending(hunks)) == multiset(hunks)
  {
    if hunks != [] {
      SortIsSorted(hunks[1..]);
      InsertKeepsOrder(hunks[0], SortDescending(hunks[1..]));
      assert hunks == [hunks[0]] + hunks[1..];
    }
  }

  lemma HeadOfDescending(a: seq<Hunk>, b: seq<Hunk>)
    requires a != [] && b != [] && Descending(a) && StrictlyDescending(b)
    requires a[0] in b && b[0] in a
    ensures a[0] == b[0]
  {
    var i :| 0 <= i < |b| && b[i] == a[0];
    var j :| 0 <= j < |a| && a[j] == b[0];
    assert a[0].newStart >= b[0].newStart;
  }

  lemma TailMultiset<T>(s: seq<T>)
    requires s != []
    ensures multiset(s[1..]) == multiset(s) - multiset{s[0]}
  {
    assert s == [s[0]] + s[1..];
  }

  /** A list with distinct keys has only one descending arrangement. */
  lemma {:induction false} DescendingUnique(a: seq<Hunk>, b: seq<Hunk>)
    requires Descending(a) && StrictlyDescending(b)
    requires multiset(a) == multiset(b)
    ensures a == b
  {
    assert |a| == |multiset(a)| == |b|;
    if a != [] {
      assert a[0] in multiset(b) && b[0] in multiset(a);
      HeadOfDescending(a, b);
      TailMultiset(a);
      TailMultiset(b);
      DescendingUnique(a[1..], b[1..]);
    }
  }

  // ----- The reference: one cut of the file into gaps and chunks

  /** An unchanged gap followed by a change from `old` to `new`. */
  datatype Chunk = Chunk(gap: seq<string>, oldLines: seq<string>, newLines: seq<string>)

  /** The file with the old side of every rejected chunk and the new side of every other. */
  function Assemble(script: seq<Chunk>, tail: seq<string>, rejected: seq<bool>): seq<string>
    requires |script| == |rejected|
  {
    if script == [] then tail
    else
      script[0].gap + (if rejected[0] then script[0].oldLines else script[0].newLines)
      + Assemble(script[1..], tail, rejected[1..])
  }

  function Choice(n: nat, b: bool): (s: seq<bool>)
    ensures |s| == n && forall i :: 0 <= i < n ==> s[i] == b
  {
    seq(n, _ => b)
  }

  function Original(script: seq<Chunk>, tail: seq<string>): seq<string> {
    Assemble(script, tail, Choice(|script|, true))
  }

  function Current(script: seq<Chunk>, tail: seq<string>): seq<string> {
    Assemble(script, tail, Choice(|script|, false))
  }

  /**
   The hunks a diff prints for the script when `before` lines of the current file
   precede it: an empty new side carries the number of the line before it, any
   other the number of its first line.
   */
  ghost predicate Describes(hunks: seq<Hunk>, script: seq<Chunk>, before: nat) {
    |hunks| == |script| &&
    (script != [] ==>
      var at := before + |script[0].gap|;
      && NewSide(hunks[0].lines) == script[0].newLines
      && OldSide(hunks[0].lines) == script[0].oldLines
      && hunks[0].newStart == (if script[0].newLines == [] then at else at + 1)
      && Describes(hunks[1..], script[1..], at + |script[0].newLines|))
  }

  /** Two deletions are never adjacent: a diff prints those as one hunk. */
  predicate Separated(script: seq<Chunk>) {
    forall i :: 0 <= i < |script| ==> script[i].newLines != [] || script[i].gap != [] || i == 0
  }

  /** The rejected hunks, the last one first. */
  function Selected(hunks: seq<Hunk>, rejected: seq<bool>): seq<Hunk>
    requires |hunks| == |rejected|
  {
    if hunks == [] then []
    else Selected(hunks[1..], rejected[1..]) + (if rejected[0] then [hunks[0]] else [])
  }

  /** The chunk lies after at least one line and leaves nothing in the current file. */
  predicate DeletedBelow(chunk: Chunk, before: nat) {
    chunk.newLines == [] && before + |chunk.gap| > 0
  }

  /**
   What the splices really produce: a rejected deletion below the first line is put
   back one line too early, because its `newStart` already names the line before it.
   */
  function Spliced(script: seq<Chunk>, tail: seq<string>, rejected: seq<bool>, before: nat): seq<string>
    requires |script| == |rejected|
  {
    if script == [] then tail
    else
      var c := script[0];
      (if rejected[0] then Restored(c, before) else c.gap + c.newLines)
      + Spliced(script[1..], tail, rejected[1..], before + |c.gap| + |c.newLines|)
  }

  lemma {:induction false} RevertAllAppend(lines: seq<string>, first: seq<Hunk>, second: seq<Hunk>)
    ensures RevertAll(lines, first + second) ==
            match RevertAll(lines, first) case Ok(l) => RevertAll(l, second) case Err(e) => Err(e)
    decreases first
  {
    if first == [] {
      assert first + second == second;
    } else {
      assert (first + second)[1..] == first[1..] + second;
      if Matches(lines, first[0]) { RevertAllAppend(Revert(lines, first[0]), first[1..], second); }
    }
  }

  lemma ChoiceTail(n: nat, b: bool)
    requires n > 0
    ensures Choice(n, b)[1..] == Choice(n - 1, b)
  {
  }

  /** One hunk whose new side sits at its own offset, reverted behind a settled suffix. */
  lemma RevertInPlace(above: seq<string>, hunk: Hunk, rest: seq<string>)
    requires Offset(hunk) == |above|
    ensures Matches(above + NewSide(hunk.lines) + rest, hunk)
    ensures Revert(above + NewSide(hunk.lines) + rest, hunk) == above + OldSide(hunk.lines) + rest
  {
    var current := NewSide(hunk.lines);
    var lines := above + current + rest;
    assert lines[|above|..|above| + |current|] == current;
    assert lines[..|above|] == above;
    assert lines[|above| + |current|..] == rest;
  }

  function LastGapLine(c: Chunk): string
    requires c.gap != []
  {
    c.gap[|c.gap| - 1]
  }

  /** One chunk as the splice leaves it when its hunk is rejected. */
  function Restored(c: Chunk, before: nat): seq<string> {
    if DeletedBelow(c, before) && c.gap != []
    then c.gap[..|c.gap| - 1] + c.oldLines + [LastGapLine(c)]
    else c.gap + c.oldLines
  }

  lemma Assoc<T>(a: seq<T>, b: seq<T>, c: seq<T>, d: seq<T>)
    ensures a + b + c + d == a + (b + c) + d
    ensures a + b + c + d == a + (b + c + d)
    ensures a + b + (c + d) == a + b + c + d
  {
  }

  lemma Assoc3<T>(a: seq<T>, b: seq<T>, c: seq<T>)
    ensures a + b + c == a + (b + c)
  {
  }

  lemma Regroup<T>(prefix: seq<T>, front: seq<T>, middle: seq<T>, last: seq<T>, rest: seq<T>)
    ensures prefix + (front + last) + rest == prefix + front + (last + rest)
    ensures prefix + (front + middle + last) + rest == prefix + front + middle + (last + rest)
  {
    assert prefix + (front + last) + rest == prefix + front + last + rest;
  }

  lemma RevertDeletion(prefix: seq<string>, c: Chunk, hunk: Hunk, rest: seq<string>)
    requires NewSide(hunk.lines) == [] && OldSide(hunk.lines) == c.oldLines
    requires c.newLines == [] && c.gap != [] && hunk.newStart == |prefix| + |c.gap|
    ensures Matches(prefix + c.gap + rest, hunk)
    ensures Revert(prefix + c.gap + rest, hunk) == prefix + Restored(c, |prefix|) + rest
  {
    var front, last := c.gap[..|c.gap| - 1], [LastGapLine(c)];
    assert c.gap == front + last;
    var above := prefix + front;
    Regroup(prefix, front, c.oldLines, last, rest);
    assert above + NewSide(hunk.lines) == above;
    RevertInPlace(above, hunk, last + rest);
  }

  /** One hunk of the script, reverted behind an already settled suffix. */
  lemma RevertOne(prefix: seq<string>, c: Chunk, hunk: Hunk, rest: seq<string>)
    requires NewSide(hunk.lines) == c.newLines && OldSide(hunk.lines) == c.oldLines
    requires var at := |prefix| + |c.gap|; hunk.newStart == (if c.newLines == [] then at else at + 1)
    requires c.newLines != [] || c.gap != [] || prefix == []
    ensures Matches(prefix + c.gap + c.newLines + rest, hunk)
    ensures Revert(prefix + c.gap + c.newLines + rest, hunk) == prefix + Restored(c, |prefix|) + rest
  {
    if DeletedBelow(c, |prefix|) {
      assert prefix + c.gap + [] == prefix + c.gap;
      RevertDeletion(prefix, c, hunk, rest);
    } else {
      RevertInPlace(prefix + c.gap, hunk, rest);
      Assoc(prefix, c.gap, c.oldLines, rest);
    }
  }

  lemma CurrentUnfolds(prefix: seq<string>, script: seq<Chunk>, tail: seq<string>)
    requires script != []
    ensures prefix + Current(script, tail)
            == prefix + script[0].gap + script[0].newLines + Current(script[1..], tail)
  {
    ChoiceTail(|script|, false);
    Assoc(prefix, script[0].gap, script[0].newLines, Current(script[1..], tail));
  }

  /** The splices, largest offset first, compute `Spliced`. */
  lemma {:induction false} RevertAllIsSpliced(prefix: seq<string>, script: seq<Chunk>, tail: seq<string>,
                                              hunks: seq<Hunk>, rejected: seq<bool>)
    requires |script| == |rejected|
    requires Describes(hunks, script, |prefix|)
    requires forall i :: 0 <= i < |script| ==>
               script[i].newLines != [] || script[i].gap != [] || (i == 0 && prefix == [])
    ensures RevertAll(prefix + Current(script, tail), Selected(hunks, rejected))
            == Ok(prefix + Spliced(script, tail, rejected, |prefix|))
    decreases script
  {
    if script != [] {
      var c := script[0];
      var below := prefix + c.gap + c.newLines;
      CurrentUnfolds(prefix, script, tail);
      RevertAllIsSpliced(below, script[1..], tail, hunks[1..], rejected[1..]);
      var rest := Spliced(script[1..], tail, rejected[1..], |below|);
      var later := Selected(hunks[1..], rejected[1..]);
      if rejected[0] {
        RevertAllAppend(prefix + Current(script, tail), later, [hunks[0]]);
        RevertOne(prefix, c, hunks[0], rest);
        RevertLast(below + rest, hunks[0]);
        Assoc3(prefix, Restored(c, |prefix|), rest);
      } else {
        assert later + [] == later;
        Assoc(prefix, c.gap, c.newLines, rest);
      }
    }
  }

  lemma RevertLast(lines: seq<string>, hunk: Hunk)
    requires Matches(lines, hunk)
    ensures RevertAll(lines, [hunk]) == Ok(Revert(lines, hunk))
  {
    assert [hunk][1..] == [];
  }

  /** Hunks of one diff carry strictly increasing line numbers. */
  lemma {:induction false} SelectedStrict(hunks: seq<Hunk>, script: seq<Chunk>, rejected: seq<bool>, before: nat)
    requires |hunks| == |rejected| && Describes(hunks, script, before)
    requires forall i :: 0 <= i < |script| ==>
               script[i].newLines != [] || script[i].gap != [] || (i == 0 && before == 0)
    ensures StrictlyDescending(Selected(hunks, rejected))
    ensures forall h :: h in Selected(hunks, rejected) ==> h.newStart > before || (before == 0 && h.newStart == 0)
    ensures hunks != [] ==> forall h :: h in Selected(hunks, rejected) ==> h.newStart >= hunks[0].newStart
  {
    if hunks != [] {
      SelectedStrict(hunks[1..], script[1..], rejected[1..], before + |script[0].gap| + |script[0].newLines|);
      forall h | h in Selected(hunks[1..], rejected[1..])
        ensures h.newStart > hunks[0].newStart
      {
        FirstStartsFirst(hunks, script, rejected, before, h);
      }
    }
  }

  lemma FirstStartsFirst(hunks: seq<Hunk>, script: seq<Chunk>, rejected: seq<bool>, before: nat, h: Hunk)
    requires |hunks| == |rejected| > 0 && Describes(hunks, script, before)
    requires forall i :: 0 < i < |script| ==> script[i].newLines != [] || script[i].gap != []
    requires h in Selected(hunks[1..], rejected[1..])
    ensures h.newStart > hunks[0].newStart
  {
    SelectedBelow(hunks[1..], script[1..], rejected[1..], before + |script[0].gap| + |script[0].newLines|, h);
  }

  /** Directly below a deletion nothing starts before the next line. */
  lemma {:induction false} SelectedBelow(hunks: seq<Hunk>, script: seq<Chunk>, rejected: seq<bool>, before: nat, h: Hunk)
    requires |hunks| == |rejected| && Describes(hunks, script, before)
    requires forall i :: 0 <= i < |script| ==> script[i].newLines != [] || script[i].gap != []
    requires h in Selected(hunks, rejected)
    ensures h.newStart > before
  {
    var at := before + |script[0].gap|;
    if h in Selected(hunks[1..], rejected[1..]) {
      SelectedBelow(hunks[1..], script[1..], rejected[1..], at + |script[0].newLines|, h);
    }
  }

  // ----- Main results, at line level

  /** What the code does for every subset of a diff's hunks, listed in any order. */
  lemma RejectComputesSpliced(script: seq<Chunk>, tail: seq<string>, hunks: seq<Hunk>, rejected: seq<bool>,
                              chosen: seq<Hunk>)
    requires |script| == |rejected|
    requires Describes(hunks, script, 0) && Separated(script)
    requires multiset(chosen) == multiset(Selected(hunks, rejected))
    ensures RevertAll(Current(script, tail), SortDescending(chosen)) == Ok(Spliced(script, tail, rejected, 0))
  {
    SortIsSorted(chosen);
    SelectedStrict(hunks, script, rejected, 0);
    DescendingUnique(SortDescending(chosen), Selected(hunks, rejected));
    RevertAllIsSpliced([], script, tail, hunks, rejected);
    assert [] + Current(script, tail) == Current(script, tail);
    assert [] + Spliced(script, tail, rejected, 0) == Spliced(script, tail, rejected, 0);
  }

  /** Number of current-file lines above chunk `i`, its gap included. */
  function LinesAbove(script: seq<Chunk>, i: nat): nat
    requires i < |script|
  {
    if i == 0 then |script[0].gap|
    else |script[0].gap| + |script[0].newLines| + LinesAbove(script[1..], i - 1)
  }

  /** Putting `old` back before or after the last gap line makes no difference. */
  predicate Unmovable(c: Chunk)
    requires c.gap != []
  {
    forall line :: line in c.oldLines ==> line == LastGapLine(c)
  }

  /** The guard of the misplaced family: no rejected deletion lies below the first line. */
  predicate NoRejectedDeletion(script: seq<Chunk>, rejected: seq<bool>)
    requires |script| == |rejected|
  {
    forall i :: 0 <= i < |script| && rejected[i] ==> script[i].newLines != [] || LinesAbove(script, i) == 0
  }

  lemma ShiftedInsert(gap: seq<string>, lines: seq<string>)
    requires gap != []
    ensures gap[..|gap| - 1] + lines + [gap[|gap| - 1]] == gap + lines <==>
            forall line :: line in lines ==> line == gap[|gap| - 1]
  {
    var g, x := |gap| - 1, gap[|gap| - 1];
    var shifted, direct := gap[..g] + lines + [x], gap + lines;
    if shifted == direct {
      var k := 0;
      while k < |lines|
        invariant 0 <= k <= |lines|
        invariant forall j :: 0 <= j < k ==> lines[j] == x
      {
        assert shifted[g + k] == lines[k];
        assert direct[g + k] == (if k == 0 then x else lines[k - 1]);
        k := k + 1;
      }
    }
    if forall line :: line in lines ==> line == x {
      forall k | 0 <= k < |direct|
        ensures shifted[k] == direct[k]
      {
        if g <= k < g + |lines| { assert lines[k - g] in lines; }
        if g < k { assert lines[k - g - 1] in lines; }
      }
      assert |shifted| == |direct|;
    }
  }

  ghost predicate OnlyUnmovable(script: seq<Chunk>, rejected: seq<bool>, before: nat)
    requires |script| == |rejected|
  {
    script != [] ==>
      && (rejected[0] && DeletedBelow(script[0], before) && script[0].gap != [] ==> Unmovable(script[0]))
      && OnlyUnmovable(script[1..], rejected[1..], before + |script[0].gap| + |script[0].newLines|)
  }

  lemma RestoredExact(c: Chunk, before: nat)
    ensures |Restored(c, before)| == |c.gap + c.oldLines|
    ensures Restored(c, before) == c.gap + c.oldLines <==> (DeletedBelow(c, before) && c.gap != [] ==> Unmovable(c))
  {
    if DeletedBelow(c, before) && c.gap != [] { ShiftedInsert(c.gap, c.oldLines); }
  }

  lemma EqualHalves<T>(a: seq<T>, b: seq<T>, c: seq<T>, d: seq<T>)
    requires |a| == |c|
    ensures a + b == c + d <==> a == c && b == d
  {
    if a + b == c + d {
      assert (a + b)[..|a|] == a && (c + d)[..|a|] == c;
      assert (a + b)[|a|..] == b && (c + d)[|a|..] == d;
    }
  }

  lemma {:induction false} SplicedExact(script: seq<Chunk>, tail: seq<string>, rejected: seq<bool>, before: nat)
    requires |script| == |rejected|
    ensures |Spliced(script, tail, rejected, before)| == |Assemble(script, tail, rejected)|
    ensures Spliced(script, tail, rejected, before) == Assemble(script, tail, rejected)
            <==> OnlyUnmovable(script, rejected, before)
  {
    if script != [] {
      var c := script[0];
      var next := before + |c.gap| + |c.newLines|;
      SplicedExact(script[1..], tail, rejected[1..], next);
      var side := if rejected[0] then c.oldLines else c.newLines;
      var restS, restA := Spliced(script[1..], tail, rejected[1..], next), Assemble(script[1..], tail, rejected[1..]);
      var front := if rejected[0] then Restored(c, before) else c.gap + c.newLines;
      RestoredExact(c, before);
      assert Spliced(script, tail, rejected, before) == front + restS;
      assert Assemble(script, tail, rejected) == c.gap + side + restA;
      EqualHalves(front, restS, c.gap + side, restA);
    }
  }

  /**
   Rejecting a subset gives exactly the original with the other hunks applied, if
   and only if every rejected deletion below the first line repeats the line above it.
   */
  lemma RejectExactly(script: seq<Chunk>, tail: seq<string>, hunks: seq<Hunk>, rejected: seq<bool>,
                      chosen: seq<Hunk>)
    requires |script| == |rejected|
    requires Describes(hunks, script, 0) && Separated(script)
    requires multiset(chosen) == multiset(Selected(hunks, rejected))
    ensures RevertAll(Current(script, tail), SortDescending(chosen)) == Ok(Assemble(script, tail, rejected))
            <==> OnlyUnmovable(script, rejected, 0)
  {
    RejectComputesSpliced(script, tail, hunks, rejected, chosen);
    SplicedExact(script, tail, rejected, 0);
  }

  lemma {:induction false} GuardSuffices(script: seq<Chunk>, rejected: seq<bool>, before: nat)
    requires |script| == |rejected|
    requires forall i :: 0 <= i < |script| && rejected[i] ==>
               script[i].newLines != [] || before + LinesAbove(script, i) == 0
    ensures OnlyUnmovable(script, rejected, before)
  {
    if script != [] {
      var next := before + |script[0].gap| + |script[0].newLines|;
      forall i | 0 <= i < |script[1..]| && rejected[1..][i]
        ensures script[1..][i].newLines != [] || next + LinesAbove(script[1..], i) == 0
      {
        assert script[1..][i] == script[i + 1] && rejected[i + 1];
        assert LinesAbove(script, i + 1) == |script[0].gap| + |script[0].newLines| + LinesAbove(script[1..], i);
      }
      GuardSuffices(script[1..], rejected[1..], next);
      assert rejected[0] ==> script[0].newLines != [] || before + LinesAbove(script, 0) == 0;
    }
  }

  /** With context lines around every hunk the code is right for every subset in every order. */
  lemma RejectSubset(script: seq<Chunk>, tail: seq<string>, hunks: seq<Hunk>, rejected: seq<bool>, chosen: seq<Hunk>)
    requires |script| == |rejected|
    requires Describes(hunks, script, 0) && Separated(script)
    requires NoRejectedDeletion(script, rejected)
    requires multiset(chosen) == multiset(Selected(hunks, rejected))
    ensures RevertAll(Current(script, tail), SortDescending(chosen)) == Ok(Assemble(script, tail, rejected))
  {
    GuardSuffices(script, rejected, 0);
    RejectExactly(script, tail, hunks, rejected, chosen);
  }

  /** Without context lines a deletion comes back in the wrong place. */
  lemma DeletionComesBackTooEarly()
    ensures var script := [Chunk(["a"], ["b"], [])];
            var hunk := Hunk(0, "@@ -2,1 +1,0 @@", 2, 1, ["-b"]);
            && Describes([hunk], script, 0) && Separated(script)
            && Original(script, []) == ["a", "b"]
            && RevertAll(Current(script, []), SortDescending([hunk])) == Ok(["b", "a"])
  {
    var script := [Chunk(["a"], ["b"], [])];
    var hunk := Hunk(0, "@@ -2,1 +1,0 @@", 2, 1, ["-b"]);
    assert OldSide(hunk.lines) == ["b"] && NewSide(hunk.lines) == [] by { assert hunk.lines[1..] == []; }
    assert Describes([hunk][1..], script[1..], 1);
    assert Selected([hunk], [true]) == [hunk] by { assert Selected([hunk][1..], [true][1..]) == []; }
    RejectComputesSpliced(script, [], [hunk], [true], [hunk]);
    assert Spliced(script, [], [true], 0) == ["b", "a"] by {
      assert Spliced(script[1..], [], [true][1..], 1) == [];
      assert Restored(script[0], 0) == ["b", "a"];
    }
    assert Original(script, []) == ["a", "b"] by {
      assert Assemble(script[1..], [], Choice(1, true)[1..]) == [];
    }
  }

  // ----- When a hunk raises

  /** Ascending hunks whose windows do not overlap; a window without lines lies inside the file. */
  ghost predicate DisjointWindows(lines: seq<string>, hunks: seq<Hunk>) {
    && (forall h :: h in hunks ==> NewSide(h.lines) != [] || Offset(h) <= |lines|)
    && (forall i, j :: 0 <= i < j < |hunks| ==> Offset(hunks[i]) + |NewSide(hunks[i].lines)| <= Offset(hunks[j]))
    && (forall i, j :: 0 <= i < j < |hunks| ==> hunks[i].newStart < hunks[j].newStart)
  }

  function Reversed<T>(s: seq<T>): seq<T> {
    if s == [] then [] else Reversed(s[1..]) + [s[0]]
  }

  lemma {:induction false} ReversedLast<T>(s: seq<T>)
    requires s != []
    ensures Reversed(s) == [s[|s| - 1]] + Reversed(s[..|s| - 1])
  {
    if |s| > 1 {
      ReversedLast(s[1..]);
      assert s[1..][..|s| - 2] == s[..|s| - 1][1..];
    } else {
      assert s[1..] == [] && s[..0] == [];
    }
  }

  /** Reverting a hunk leaves every window above it as it was. */
  lemma RevertKeepsWindowsAbove(lines: seq<string>, h: Hunk, last: Hunk)
    requires Matches(lines, last)
    requires NewSide(h.lines) != [] || Offset(h) <= |lines|
    requires NewSide(last.lines) != [] || Offset(last) <= |lines|
    requires Offset(h) + |NewSide(h.lines)| <= Offset(last)
    ensures Matches(Revert(lines, last), h) <==> Matches(lines, h)
    ensures Offset(h) <= |Revert(lines, last)|
  {
    var from, to := Offset(h), Offset(h) + |NewSide(h.lines)|;
    var at := Offset(last);
    assert |Slice(lines, at, at + |NewSide(last.lines)|)| == |NewSide(last.lines)|;
    assert at <= |lines|;
    var after := Revert(lines, last);
    PrefixKept(lines, at, |NewSide(last.lines)|, OldSide(last.lines));
    PrefixSlice(after, at, from, to);
    PrefixSlice(lines, at, from, to);
  }

  lemma PrefixKept<T>(lines: seq<T>, at: nat, count: nat, insert: seq<T>)
    requires at <= |lines|
    ensures at <= |Splice(lines, at, count, insert)| && Splice(lines, at, count, insert)[..at] == lines[..at]
  {
  }

  lemma PrefixSlice<T>(s: seq<T>, at: nat, from: nat, to: nat)
    requires from <= to <= at <= |s|
    ensures s[..at][from..to] == s[from..to]
  {
  }

  /** Working upwards through the hunks raises exactly when one of them does not match. */
  lemma {:induction false} RaisesInOrder(lines: seq<string>, hunks: seq<Hunk>)
    requires DisjointWindows(lines, hunks)
    ensures RevertAll(lines, Reversed(hunks)).Ok? <==> forall h :: h in hunks ==> Matches(lines, h)
    decreases |hunks|
  {
    if hunks != [] {
      var n := |hunks| - 1;
      var last, above := hunks[n], hunks[..n];
      ReversedLast(hunks);
      assert Reversed(hunks)[1..] == Reversed(above);
      assert hunks == above + [last];
      assert last in hunks && forall h :: h in hunks <==> h in above || h == last;
      if Matches(lines, last) {
        WindowsAboveStay(lines, hunks);
        RaisesInOrder(Revert(lines, last), above);
      }
    }
  }

  lemma WindowsAboveStay(lines: seq<string>, hunks: seq<Hunk>)
    requires hunks != [] && DisjointWindows(lines, hunks) && Matches(lines, hunks[|hunks| - 1])
    ensures var n := |hunks| - 1; var after := Revert(lines, hunks[n]);
            && DisjointWindows(after, hunks[..n])
            && forall h :: h in hunks[..n] ==> (Matches(after, h) <==> Matches(lines, h))
  {
    var n := |hunks| - 1;
    var last := hunks[n];
    assert last in hunks;
    forall i | 0 <= i < n
      ensures Matches(Revert(lines, last), hunks[i]) <==> Matches(lines, hunks[i])
      ensures Offset(hunks[i]) <= |Revert(lines, last)|
    {
      assert hunks[i] in hunks;
      RevertKeepsWindowsAbove(lines, hunks[i], last);
    }
    assert forall h :: h in hunks[..n] ==> exists i :: 0 <= i < n && hunks[i] == h;
  }

  /** Reversing an ascending list gives a strictly descending one with the same hunks. */
  lemma {:induction false} ReversedDescends(hunks: seq<Hunk>)
    requires forall i, j :: 0 <= i < j < |hunks| ==> hunks[i].newStart < hunks[j].newStart
    ensures StrictlyDescending(Reversed(hunks))
    ensures multiset(Reversed(hunks)) == multiset(hunks)
    ensures forall h :: h in Reversed(hunks) ==> h in hunks
  {
    if hunks != [] {
      ReversedDescends(hunks[1..]);
      assert hunks == [hunks[0]] + hunks[1..];
      var rest := Reversed(hunks[1..]);
      forall j | 0 <= j < |rest|
        ensures rest[j].newStart > hunks[0].newStart
      {
        assert rest[j] in rest;
      }
    }
  }

  /**
   The hunks may be listed in any order: a file whose reviewed windows do not overlap is
   reverted exactly when every selected hunk still matches; one that does not always raises.
   */
  lemma RaisesExactlyOnMismatch(lines: seq<string>, hunks: seq<Hunk>, chosen: seq<Hunk>)
    requires DisjointWindows(lines, hunks) && multiset(chosen) == multiset(hunks)
    ensures RevertAll(lines, SortDescending(chosen)).Ok? <==> forall h :: h in chosen ==> Matches(lines, h)
  {
    SortIsSorted(chosen);
    ReversedDescends(hunks);
    DescendingUnique(SortDescending(chosen), Reversed(hunks));
    RaisesInOrder(lines, hunks);
    forall h
      ensures h in chosen <==> h in hunks
    {
      assert h in chosen <==> h in multiset(chosen);
    }
  }

  // ----- The text-level method

  predicate EndsWithNewline(content: string) {
    |content| > 0 && content[|content| - 1] == NEWLINE
  }

  /** The lines `rejectHunks` edits. */
  function ContentLines(content: string): seq<string> {
    var lines := Split(content);
    if EndsWithNewline(content) then lines[..|lines| - 1] else lines
  }

  function Render(lines: seq<string>, finalNewline: bool): string {
    Join(lines) + (if finalNewline then [NEWLINE] else "")
  }

  lemma RevertNext(lines: seq<string>, hunks: seq<Hunk>, k: nat)
    requires k < |hunks|
    ensures RevertAll(lines, hunks[k..]) ==
            if !Matches(lines, hunks[k]) then Err(hunks[k].header) else RevertAll(Revert(lines, hunks[k]), hunks[k + 1..])
  {
    assert hunks[k..][1..] == hunks[k + 1..] && hunks[k..][0] == hunks[k];
  }

  method RejectHunks(content: string, hunks: seq<Hunk>) returns (r: Result<string, string>)
    ensures r == match RevertAll(ContentLines(content), SortDescending(hunks))
                 case Ok(lines) => Ok(Render(lines, EndsWithNewline(content)))
                 case Err(header) => Err(header)
  {
    var finalNewline := EndsWithNewline(content);
    var currentLines := Split(content);
    if finalNewline { currentLines := currentLines[..|currentLines| - 1]; }
    var sorted := SortDescending(hunks);
    ghost var goal := RevertAll(currentLines, sorted);
    for k := 0 to |sorted|
      invariant RevertAll(currentLines, sorted[k..]) == goal
    {
      var hunk := sorted[k];
      var current, original := NewSide(hunk.lines), OldSide(hunk.lines);
      var offset := Offset(hunk);
      RevertNext(currentLines, sorted, k);
      if Slice(currentLines, offset, offset + |current|) != current {
        return Err(hunk.header);
      }
      currentLines := Splice(currentLines, offset, |current|, original);
    }
    return Ok(Render(currentLines, finalNewline));
  }

  lemma {:induction false} JoinSnocEmpty(lines: seq<string>)
    requires |lines| > 0
    ensures Join(lines + [""]) == Join(lines) + [NEWLINE]
  {
    if |lines| == 1 {
      assert (lines + [""])[1..] == [""];
    } else {
      JoinSnocEmpty(lines[1..]);
      assert (lines + [""])[1..] == lines[1..] + [""];
    }
  }

  lemma {:induction false} SplitEndsEmpty(content: string)
    requires EndsWithNewline(content)
    ensures |Split(content)| > 1 && Split(content)[|Split(content)| - 1] == ""
  {
    if |content| == 1 {
      assert content[1..] == "";
    } else {
      SplitEndsEmpty(content[1..]);
    }
  }

  /** Cutting a text into lines and writing it back with no hunk rejected changes nothing. */
  lemma ContentRoundTrip(content: string)
    ensures Render(ContentLines(content), EndsWithNewline(content)) == content
  {
    JoinSplit(content);
    if EndsWithNewline(content) {
      SplitEndsEmpty(content);
      var lines := Split(content);
      assert lines == lines[..|lines| - 1] + [""];
      JoinSnocEmpty(lines[..|lines| - 1]);
    }
  }

  /** A text written from lines is cut back into those lines. */
  lemma LinesRoundTrip(lines: seq<string>, finalNewline: bool)
    requires |lines| > 0 && forall line :: line in lines ==> NEWLINE !in line
    requires finalNewline || lines[|lines| - 1] != "" || |lines| == 1
    ensures ContentLines(Render(lines, finalNewline)) == lines
    ensures EndsWithNewline(Render(lines, finalNewline)) == finalNewline
  {
    var content := Render(lines, finalNewline);
    if finalNewline {
      JoinSnocEmpty(lines);
      SplitJoin(lines + [""]);
      assert (lines + [""])[..|lines|] == lines;
    } else {
      SplitJoin(lines);
      assert content == Join(lines);
      if EndsWithNewline(content) {
        SplitEndsEmpty(content);
        assert false;
      }
    }
  }
}
