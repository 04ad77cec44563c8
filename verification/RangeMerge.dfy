/**
 Sorting and merging byte ranges and splicing them out of a text
 (crates/audit/src/lib.rs, the second half of `redact_text`), against painting the
 text byte by byte.
 */
module RangeMerge {
  import opened KeyScan

  const REDACTED := "[REDACTED]"

  // ----- The reference: each byte on its own

  /** Every maximal run of `hidden` bytes becomes one marker; every other byte is kept. */
  function Paint(s: string, hidden: set<nat>, from: nat): string
    requires from <= |s|
    decreases |s| - from
  {
    if from == |s| then ""
    else if from !in hidden then [s[from]] + Paint(s, hidden, from + 1)
    else if from == 0 || from - 1 !in hidden then REDACTED + Paint(s, hidden, from + 1)
    else Paint(s, hidden, from + 1)
  }

  lemma PaintShown(s: string, hidden: set<nat>, from: nat)
    requires from < |s| && from !in hidden
    ensures Paint(s, hidden, from) == [s[from]] + Paint(s, hidden, from + 1)
  {
  }

  lemma CopyOne(s: string, from: nat, end: nat, rest: string)
    requires from < end <= |s|
    ensures [s[from]] + (s[from + 1..end] + rest) == s[from..end] + rest
  {
    assert s[from..end] == [s[from]] + s[from + 1..end];
  }

  lemma {:induction false} PaintGap(s: string, hidden: set<nat>, from: nat, end: nat)
    requires from <= end <= |s|
    requires forall x :: from <= x < end ==> x !in hidden
    ensures Paint(s, hidden, from) == s[from..end] + Paint(s, hidden, end)
    decreases |s| - from
  {
    if from < end {
      PaintShown(s, hidden, from);
      PaintGap(s, hidden, from + 1, end);
      CopyOne(s, from, end, Paint(s, hidden, end));
    } else {
      assert s[from..end] == "";
    }
  }

  lemma PaintNothing(s: string, hidden: set<nat>)
    requires forall x :: 0 <= x < |s| ==> x !in hidden
    ensures Paint(s, hidden, 0) == s
  {
    PaintGap(s, hidden, 0, |s|);
    assert s[0..|s|] + "" == s;
  }

  lemma {:induction false} PaintInside(s: string, hidden: set<nat>, from: nat, end: nat)
    requires 0 < from <= end <= |s|
    requires forall x :: from - 1 <= x < end ==> x in hidden
    ensures Paint(s, hidden, from) == Paint(s, hidden, end)
    decreases |s| - from
  {
    if from < end {
      assert from in hidden && from - 1 in hidden;
      PaintInside(s, hidden, from + 1, end);
    }
  }

  lemma PaintRun(s: string, hidden: set<nat>, from: nat, end: nat)
    requires from < end <= |s|
    requires forall x :: from <= x < end ==> x in hidden
    requires from == 0 || from - 1 !in hidden
    ensures Paint(s, hidden, from) == REDACTED + Paint(s, hidden, end)
  {
    assert from in hidden;
    PaintInside(s, hidden, from + 1, end);
  }

  // ----- Sorting

  predicate NotAfter(a: Range, b: Range) {
    a.start < b.start || (a.start == b.start && a.end <= b.end)
  }

  function InsertRange(r: Range, sorted: seq<Range>): seq<Range> {
    if sorted == [] || NotAfter(r, sorted[0]) then [r] + sorted
    else [sorted[0]] + InsertRange(r, sorted[1..])
  }

  function SortRanges(ranges: seq<Range>): seq<Range> {
    if ranges == [] then [] else InsertRange(ranges[0], SortRanges(ranges[1..]))
  }

  ghost predicate Sorted(ranges: seq<Range>) {
    forall i, j :: 0 <= i < j < |ranges| ==> NotAfter(ranges[i], ranges[j])
  }

  lemma {:induction false} InsertRangeSorted(r: Range, sorted: seq<Range>)
    requires Sorted(sorted)
    ensures Sorted(InsertRange(r, sorted))
    ensures multiset(InsertRange(r, sorted)) == multiset{r} + multiset(sorted)
  {
    if sorted == [] || NotAfter(r, sorted[0]) {
      PrependSorted(r, sorted);
    } else {
      InsertRangeSorted(r, sorted[1..]);
      var rest := InsertRange(r, sorted[1..]);
      assert sorted == [sorted[0]] + sorted[1..];
      forall j | 0 <= j < |rest|
        ensures NotAfter(sorted[0], rest[j])
      {
        assert rest[j] in multiset(rest);
        assert rest[j] == r || rest[j] in multiset(sorted[1..]);
      }
      PrependSorted(sorted[0], rest);
    }
  }

  lemma PrependSorted(r: Range, sorted: seq<Range>)
    requires Sorted(sorted)
    requires sorted != [] ==> NotAfter(r, sorted[0])
    ensures Sorted([r] + sorted)
  {
    forall i, j | 0 <= i < j < |[r] + sorted|
      ensures NotAfter(([r] + sorted)[i], ([r] + sorted)[j])
    {
      if j > 1 { assert NotAfter(sorted[0], sorted[j - 1]); }
    }
  }

  lemma {:induction false} SortRangesSorted(ranges: seq<Range>)
    ensures Sorted(SortRanges(ranges))
    ensures multiset(SortRanges(ranges)) == multiset(ranges)
  {
    if ranges != [] {
      SortRangesSorted(ranges[1..]);
      InsertRangeSorted(ranges[0], SortRanges(ranges[1..]));
      assert ranges == [ranges[0]] + ranges[1..];
    }
  }

  lemma SortKeepsMembers(ranges: seq<Range>)
    ensures forall r :: r in SortRanges(ranges) <==> r in ranges
  {
    SortRangesSorted(ranges);
    forall r
      ensures r in SortRanges(ranges) <==> r in ranges
    {
      assert r in multiset(SortRanges(ranges)) <==> r in multiset(ranges);
    }
  }

  // ----- Merging

  /** At least one byte lies between any two ranges. */
  ghost predicate Apart(ranges: seq<Range>) {
    && (forall r :: r in ranges ==> r.start < r.end)
    && (forall i, j :: 0 <= i < j < |ranges| ==> ranges[i].end < ranges[j].start)
  }

  ghost predicate SameCover(a: seq<Range>, b: seq<Range>) {
    forall x :: Covers(a, x) <==> Covers(b, x)
  }

  /** One step of the loop: `merged` covers `done`, and so does what replaces it. */
  lemma ExtendCover(front: seq<Range>, last: Range, r: Range, x: int)
    requires last.start <= r.start <= last.end && r.start < r.end
    ensures var end := if last.end >= r.end then last.end else r.end;
            Covers(front + [Range(last.start, end)], x) <==> Covers(front + [last] + [r], x)
  {
    var end := if last.end >= r.end then last.end else r.end;
    CoversConcat(front, [Range(last.start, end)], x);
    CoversConcat(front + [last], [r], x);
    CoversConcat(front, [last], x);
    CoversOne(Range(last.start, end), x);
    CoversOne(last, x);
    CoversOne(r, x);
  }

  lemma CoversOne(r: Range, x: int)
    ensures Covers([r], x) <==> r.start <= x < r.end
  {
    assert r in [r];
  }

  ghost predicate HasStart(ranges: seq<Range>, x: nat) { exists r :: r in ranges && r.start == x }

  ghost predicate HasEnd(ranges: seq<Range>, x: nat) { exists r :: r in ranges && r.end == x }

  /** Every bound of a merged range is a bound of some range that went into it. */
  ghost predicate BoundsFrom(merged: seq<Range>, ranges: seq<Range>) {
    forall m :: m in merged ==> HasStart(ranges, m.start) && HasEnd(ranges, m.end)
  }

  /** The loop body: extend the last merged range or open a new one. */
  function MergeStep(merged: seq<Range>, r: Range): seq<Range> {
    var n := |merged| - 1;
    if n >= 0 && r.start <= merged[n].end
    then merged[..n] + [Range(merged[n].start, if merged[n].end >= r.end then merged[n].end else r.end)]
    else merged + [r]
  }

  lemma MergeStepCovers(merged: seq<Range>, r: Range, x: int)
    requires r.start < r.end && (merged != [] ==> merged[|merged| - 1].start <= r.start)
    ensures Covers(MergeStep(merged, r), x) <==> Covers(merged, x) || Covers([r], x)
  {
    CoversConcat(merged, [r], x);
    var n := |merged| - 1;
    if n >= 0 && r.start <= merged[n].end {
      assert merged == merged[..n] + [merged[n]];
      ExtendCover(merged[..n], merged[n], r, x);
    }
  }

  lemma MergeStepApart(merged: seq<Range>, r: Range)
    requires Apart(merged) && r.start < r.end && (merged != [] ==> merged[|merged| - 1].start <= r.start)
    ensures Apart(MergeStep(merged, r))
    ensures MergeStep(merged, r) != [] && MergeStep(merged, r)[|MergeStep(merged, r)| - 1].start <= r.start
  {
    var n := |merged| - 1;
    if n >= 0 && r.start <= merged[n].end {
      assert merged[n] in merged;
      assert forall m :: m in merged[..n] ==> m in merged;
    }
  }

  lemma MergeStepBounds(merged: seq<Range>, r: Range, ranges: seq<Range>)
    requires BoundsFrom(merged, ranges) && r in ranges
    ensures BoundsFrom(MergeStep(merged, r), ranges)
  {
    assert HasStart(ranges, r.start) && HasEnd(ranges, r.end);
    var n := |merged| - 1;
    if n >= 0 && r.start <= merged[n].end {
      assert merged[n] in merged;
      assert forall m :: m in merged[..n] ==> m in merged;
    }
  }

  method MergeRanges(ranges: seq<Range>) returns (merged: seq<Range>)
    requires Sorted(ranges) && forall r :: r in ranges ==> r.start < r.end
    ensures Apart(merged) && SameCover(merged, ranges) && BoundsFrom(merged, ranges)
  {
    merged := [];
    for k := 0 to |ranges|
      invariant Apart(merged) && BoundsFrom(merged, ranges)
      invariant forall x :: Covers(merged, x) <==> Covers(ranges[..k], x)
      invariant merged != [] && k < |ranges| ==> merged[|merged| - 1].start <= ranges[k].start
    {
      var r := ranges[k];
      assert r in ranges && ranges[..k + 1] == ranges[..k] + [r];
      forall x
        ensures Covers(MergeStep(merged, r), x) <==> Covers(ranges[..k + 1], x)
      {
        MergeStepCovers(merged, r, x);
        CoversConcat(ranges[..k], [r], x);
      }
      MergeStepApart(merged, r);
      MergeStepBounds(merged, r, ranges);
      if merged != [] && r.start <= merged[|merged| - 1].end {
        var last := merged[|merged| - 1];
        merged := merged[..|merged| - 1] + [Range(last.start, if last.end >= r.end then last.end else r.end)];
      } else {
        merged := merged + [r];
      }
    }
    assert ranges[..|ranges|] == ranges;
  }

  // ----- Splicing

  ghost predicate PaintedBy(merged: seq<Range>, s: string, hidden: set<nat>) {
    && (forall r :: r in merged ==> r.end <= |s|)
    && (forall x: nat :: x in hidden <==> Covers(merged, x))
  }

  lemma InsideIsHidden(merged: seq<Range>, s: string, hidden: set<nat>, k: nat, x: nat)
    requires PaintedBy(merged, s, hidden) && k < |merged| && merged[k].start <= x < merged[k].end
    ensures x in hidden
  {
    assert merged[k] in merged;
  }

  lemma BetweenIsShown(merged: seq<Range>, s: string, hidden: set<nat>, k: nat, x: nat)
    requires PaintedBy(merged, s, hidden) && Apart(merged) && k <= |merged|
    requires k > 0 ==> merged[k - 1].end <= x
    requires k < |merged| ==> x < merged[k].start
    ensures x !in hidden
  {
    forall r | r in merged
      ensures !(r.start <= x < r.end)
    {
      var i :| 0 <= i < |merged| && merged[i] == r;
      if k > 0 && i < k - 1 { assert merged[i].end < merged[k - 1].start; }
      if i > k { assert merged[k].end < merged[i].start; }
    }
  }

  lemma AppendPieces(a: string, b: string, c: string, d: string)
    ensures a + (b + c + d) == a + b + c + d
  {
  }

  /** Copying the gaps and writing one marker per merged range paints the text. */
  method SpliceRanges(s: string, merged: seq<Range>, ghost hidden: set<nat>) returns (result: string)
    requires Apart(merged) && PaintedBy(merged, s, hidden)
    ensures result == Paint(s, hidden, 0)
  {
    result := "";
    var cursor := 0;
    for k := 0 to |merged|
      invariant cursor <= |s|
      invariant cursor == if k == 0 then 0 else merged[k - 1].end
      invariant result + Paint(s, hidden, cursor) == Paint(s, hidden, 0)
    {
      var r := merged[k];
      assert r in merged;
      assert cursor <= r.start;
      GapThenRun(s, merged, hidden, k, cursor);
      AppendPieces(result, s[cursor..r.start], REDACTED, Paint(s, hidden, r.end));
      result := result + s[cursor..r.start];
      result := result + REDACTED;
      cursor := r.end;
    }
    forall x | cursor <= x < |s|
      ensures x !in hidden
    {
      BetweenIsShown(merged, s, hidden, |merged|, x);
    }
    PaintGap(s, hidden, cursor, |s|);
    assert s[cursor..|s|] == s[cursor..];
    assert s[cursor..] + "" == s[cursor..];
    result := result + s[cursor..];
  }

  lemma GapThenRun(s: string, merged: seq<Range>, hidden: set<nat>, k: nat, cursor: nat)
    requires Apart(merged) && PaintedBy(merged, s, hidden) && k < |merged|
    requires cursor == if k == 0 then 0 else merged[k - 1].end
    requires cursor <= merged[k].start < merged[k].end <= |s|
    ensures Paint(s, hidden, cursor) == s[cursor..merged[k].start] + REDACTED + Paint(s, hidden, merged[k].end)
  {
    var r := merged[k];
    forall x | cursor <= x < r.start
      ensures x !in hidden
    {
      BetweenIsShown(merged, s, hidden, k, x);
    }
    PaintGap(s, hidden, cursor, r.start);
    forall x | r.start <= x < r.end
      ensures x in hidden
    {
      InsideIsHidden(merged, s, hidden, k, x);
    }
    if r.start > 0 { BetweenIsShown(merged, s, hidden, k, r.start - 1); }
    PaintRun(s, hidden, r.start, r.end);
  }
}
