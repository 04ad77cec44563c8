/**
 Removing credential shapes from process output (crates/audit/src/lib.rs,
 `redact_text`). Three scanners collect byte ranges: assignments to a sensitive
 key, scheme tokens of an Authorization header, and prefixed keys.
 */
module Redaction {
  import opened KeyScan
  import opened RangeMerge
  import opened AssignmentScan
  import opened SchemeScan

  // ----- All ranges are proper

  function AllRanges(s: string): seq<Range> {
    AssignmentRanges(s, 0) + SchemeRanges(s, Lower(s), SCHEMES) + ScanKeys(s, KEY_PREFIXES)
  }

  lemma AllRangesProper(s: string)
    ensures AllProper(s, AllRanges(s))
  {
    AssignmentRangesProper(s, 0);
    SchemeRangesProper(s, Lower(s), SCHEMES);
    ScanKeysProper(s, KEY_PREFIXES);
  }

  // ----- The reference

  /** A byte that must not leave: assigned, a scheme token, or part of a key at any position. */
  ghost predicate MustHide(s: string, x: nat) {
    || IsAssigned(s, x, 0)
    || InSomeScheme(s, Lower(s), x)
    || InSomeKey(s, KEY_PREFIXES, x)
  }

  ghost function Hidden(s: string): set<nat> {
    set x | 0 <= x < |s| && MustHide(s, x)
  }

  const PEM_MARKER := "[REDACTED PRIVATE KEY]"

  predicate Contains(s: string, part: string) {
    Find(s, part, 0).Some?
  }

  predicate HoldsPrivateKey(s: string) {
    Contains(s, "-----BEGIN") && Contains(s, "PRIVATE KEY-----")
  }

  ghost function Redacted(s: string): string {
    if HoldsPrivateKey(s) then PEM_MARKER else Paint(s, Hidden(s), 0)
  }

  lemma RangesAreNaive(s: string, x: nat)
    ensures Covers(AllRanges(s), x) <==> MustHide(s, x)
  {
    var a, b, c := AssignmentRanges(s, 0), SchemeRanges(s, Lower(s), SCHEMES), ScanKeys(s, KEY_PREFIXES);
    CoversConcat(a + b, c, x);
    CoversConcat(a, b, x);
    AssignmentsAreNaive(s, x);
    SchemesAreNaive(s, Lower(s), SCHEMES, x);
    ScanKeysIsNaive(s, KEY_PREFIXES, x);
  }

  /** The three scanners together cover exactly the bytes that must be hidden. */
  lemma RangesAreHidden(s: string, x: nat)
    ensures Covers(AllRanges(s), x) <==> x in Hidden(s)
  {
    RangesAreNaive(s, x);
    AllRangesProper(s);
    if Covers(AllRanges(s), x) { ProperCoversInside(s, AllRanges(s), x); }
  }

  lemma ProperCoversInside(s: string, ranges: seq<Range>, x: nat)
    requires AllProper(s, ranges) && Covers(ranges, x)
    ensures x < |s|
  {
    var r :| r in ranges && r.start <= x < r.end;
    assert Proper(s, r);
  }

  /** Merged ranges can be cut out: they hold exactly the hidden bytes. */
  lemma MergedPaints(s: string, merged: seq<Range>, ranges: seq<Range>)
    requires SameCover(merged, ranges) && BoundsFrom(merged, ranges)
    requires forall r :: r in ranges <==> r in AllRanges(s)
    ensures PaintedBy(merged, s, Hidden(s))
    ensures forall m :: m in merged ==> Cuttable(s, m.start) && Cuttable(s, m.end)
  {
    AllRangesProper(s);
    forall m | m in merged
      ensures m.end <= |s| && Cuttable(s, m.start) && Cuttable(s, m.end)
    {
      assert HasStart(ranges, m.start) && HasEnd(ranges, m.end);
      var a :| a in ranges && a.start == m.start;
      var b :| b in ranges && b.end == m.end;
      assert Proper(s, a) && Proper(s, b);
    }
    forall x: nat
      ensures x in Hidden(s) <==> Covers(merged, x)
    {
      RangesAreHidden(s, x);
      SameMembersCover(ranges, AllRanges(s), x);
    }
  }

  lemma SameMembersCover(a: seq<Range>, b: seq<Range>, x: int)
    requires forall r :: r in a <==> r in b
    ensures Covers(a, x) <==> Covers(b, x)
  {
  }

  lemma NothingToHide(s: string)
    requires AllRanges(s) == []
    ensures Paint(s, Hidden(s), 0) == s
  {
    forall x | 0 <= x < |s|
      ensures x !in Hidden(s)
    {
      RangesAreHidden(s, x);
    }
    PaintNothing(s, Hidden(s));
  }

  method RedactText(value: string) returns (result: string)
    ensures result == Redacted(value)
  {
    if HoldsPrivateKey(value) { return PEM_MARKER; }
    var assignments := ScanAssignments(value);
    var schemes := ScanSchemes(value, Lower(value), SCHEMES);
    var keys := ScanKeyPrefixes(value, KEY_PREFIXES);
    var ranges := assignments + schemes + keys;
    if ranges == [] {
      NothingToHide(value);
      return value;
    }
    AllRangesProper(value);
    SortRangesSorted(ranges);
    SortKeepsMembers(ranges);
    var sorted := SortRanges(ranges);
    var merged := MergeRanges(sorted);
    MergedPaints(value, merged, sorted);
    result := SpliceRanges(value, merged, Hidden(value));
  }

  // ----- No character is torn

  predicate IsContinuation(c: char) { 0x80 <= c as int < 0xC0 }

  /** What valid UTF-8 guarantees about neighbouring bytes. */
  predicate Utf8Neighbours(s: string) {
    forall i :: 0 <= i < |s| && IsContinuation(s[i]) ==> i > 0 && s[i - 1] as int >= 0x80
  }

  predicate CharBoundary(s: string, i: nat) {
    i <= |s| && (i == |s| || !IsContinuation(s[i]))
  }

  /** Every bound at which the text is sliced is a character boundary. */
  lemma CutsAreBoundaries(s: string, merged: seq<Range>, ranges: seq<Range>)
    requires Utf8Neighbours(s)
    requires SameCover(merged, ranges) && BoundsFrom(merged, ranges)
    requires forall r :: r in ranges <==> r in AllRanges(s)
    ensures forall m :: m in merged ==> CharBoundary(s, m.start) && CharBoundary(s, m.end)
  {
    MergedPaints(s, merged, ranges);
  }
}
