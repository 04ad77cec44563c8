/**
 Scheme tokens of an Authorization header in process output (crates/audit/src/lib.rs,
 `is_authorization_context` and the scheme loop of `redact_text`).
 */
module SchemeScan {
  import opened Wrappers
  import opened KeyScan

  // ----- Scheme tokens of an Authorization header

  predicate HeaderSeparator(c: char) {
    c == ' ' || c == '\t' || c == ':' || c == '"' || c == '\''
  }

  function HeaderNameEnd(before: string): (end: nat)
    ensures end <= |before|
  {
    if before != "" && HeaderSeparator(before[|before| - 1]) then HeaderNameEnd(before[..|before| - 1]) else |before|
  }

  const HEADER_NAME := "authorization"

  /** The lowercased text before a scheme ends in an Authorization header name. */
  predicate AuthorizationContext(before: string) {
    var head := before[..HeaderNameEnd(before)];
    && EndsWith(head, HEADER_NAME)
    && (|head| == |HEADER_NAME| || !IsAlnum(head[|head| - |HEADER_NAME| - 1]))
  }

  const SCHEMES: seq<string> := ["bearer ", "basic "]

  /** The token after the scheme name at `at`; `lower` is the lowercased text. */
  function SchemeRange(s: string, lower: string, marker: string, at: nat): seq<Range>
    requires at + |marker| <= |s| == |lower|
  {
    var start := at + |marker|;
    if TokenEnd(s, start) > start && AuthorizationContext(lower[..at]) then [Range(start, TokenEnd(s, start))] else []
  }

  /** The ranges from `i` on, position by position; the search resumes where a token ends. */
  function SchemeFrom(s: string, lower: string, marker: string, i: nat): seq<Range>
    requires i <= |s| == |lower| && marker != ""
    decreases |s| - i
  {
    if i == |s| then []
    else if !OccursAt(lower, marker, i) then SchemeFrom(s, lower, marker, i + 1)
    else SchemeRange(s, lower, marker, i) + SchemeFrom(s, lower, marker, TokenEnd(s, i + |marker|))
  }

  function SchemeRanges(s: string, lower: string, markers: seq<string>): seq<Range>
    requires |s| == |lower| && "" !in markers
  {
    if markers == [] then []
    else SchemeFrom(s, lower, markers[0], 0) + SchemeRanges(s, lower, markers[1..])
  }

  /** Nothing is collected in front of the occurrence that is found, or without one. */
  lemma {:induction false} SchemeFromFound(s: string, lower: string, marker: string, offset: nat)
    requires offset <= |s| == |lower| && marker != ""
    ensures Find(lower, marker, offset) == None ==> SchemeFrom(s, lower, marker, offset) == []
    ensures Find(lower, marker, offset).Some? ==>
              SchemeFrom(s, lower, marker, offset) == SchemeFrom(s, lower, marker, Find(lower, marker, offset).value)
    decreases |s| - offset
  {
    if offset < |s| && !OccursAt(lower, marker, offset) { SchemeFromFound(s, lower, marker, offset + 1); }
  }

  /** What the loop does with one occurrence of the scheme name. */
  method VisitScheme(s: string, lower: string, marker: string, at: nat) returns (found: seq<Range>, next: nat)
    requires |s| == |lower| && marker != "" && OccursAt(lower, marker, at)
    ensures at < next <= |s|
    ensures SchemeFrom(s, lower, marker, at) == found + SchemeFrom(s, lower, marker, next)
  {
    var start := at + |marker|;
    next := SecretTokenEnd(s, start);
    found := if next > start && AuthorizationContext(lower[..at]) then [Range(start, next)] else [];
  }

  method ScanScheme(s: string, lower: string, marker: string) returns (ranges: seq<Range>)
    requires |s| == |lower| && marker != ""
    ensures ranges == SchemeFrom(s, lower, marker, 0)
  {
    ranges := [];
    var offset := 0;
    var found := Find(lower, marker, offset);
    while found.Some?
      invariant offset <= |s| && found == Find(lower, marker, offset)
      invariant ranges + SchemeFrom(s, lower, marker, offset) == SchemeFrom(s, lower, marker, 0)
      decreases |s| - offset
    {
      SchemeFromFound(s, lower, marker, offset);
      var more, next := VisitScheme(s, lower, marker, found.value);
      AppendRanges(ranges, more, SchemeFrom(s, lower, marker, next));
      ranges := ranges + more;
      offset := next;
      found := Find(lower, marker, offset);
    }
    SchemeFromFound(s, lower, marker, offset);
    assert ranges + [] == ranges;
  }

  method ScanSchemes(s: string, lower: string, markers: seq<string>) returns (ranges: seq<Range>)
    requires |s| == |lower| && "" !in markers
    ensures ranges == SchemeRanges(s, lower, markers)
  {
    ranges := [];
    for k := 0 to |markers|
      invariant ranges + SchemeRanges(s, lower, markers[k..]) == SchemeRanges(s, lower, markers)
    {
      assert markers[k..][1..] == markers[k + 1..];
      var more := ScanScheme(s, lower, markers[k]);
      AppendRanges(ranges, more, SchemeRanges(s, lower, markers[k + 1..]));
      ranges := ranges + more;
    }
    assert markers[|markers|..] == [];
    assert ranges + [] == ranges;
  }

  // ----- What the scheme loop covers

  /** The token of an earlier occurrence, itself not passed over, runs across `p`. */
  ghost predicate IsShadowed(s: string, lower: string, marker: string, p: nat)
    requires |s| == |lower|
    decreases p
  {
    exists q: nat :: q < p && ShadowReaches(s, lower, marker, q, p) && !IsShadowed(s, lower, marker, q)
  }

  predicate ShadowReaches(s: string, lower: string, marker: string, q: nat, p: nat)
    requires |s| == |lower|
  {
    OccursAt(lower, marker, q) && q + |marker| <= p < TokenEnd(s, q + |marker|)
  }

  /** The byte is in the token of an occurrence in an Authorization header that no earlier token runs across. */
  ghost predicate IsSchemeToken(s: string, lower: string, marker: string, x: int, from: nat)
    requires |s| == |lower|
  {
    exists p: nat :: from <= p && IsVisited(s, lower, marker, p) && Covers(SchemeRange(s, lower, marker, p), x)
  }

  ghost predicate IsVisited(s: string, lower: string, marker: string, p: nat)
    requires |s| == |lower|
  {
    OccursAt(lower, marker, p) && !IsShadowed(s, lower, marker, p)
  }

  ghost predicate InSomeScheme(s: string, lower: string, x: int)
    requires |s| == |lower|
  {
    exists marker :: marker in SCHEMES && IsSchemeToken(s, lower, marker, x, 0)
  }

  /** No token of an occurrence in front of `offset` runs beyond it. */
  ghost predicate AllBehind(s: string, lower: string, marker: string, offset: nat)
    requires |s| == |lower|
  {
    forall q: nat :: q < offset && IsVisited(s, lower, marker, q) ==> TokenEnd(s, q + |marker|) <= offset
  }

  /** A scheme name does not overlap itself. */
  lemma NoOverlap(lower: string, marker: string, p: nat, q: nat)
    requires marker in SCHEMES && OccursAt(lower, marker, p) && OccursAt(lower, marker, q) && p < q
    ensures p + |marker| <= q
  {
    assert lower[q] == lower[q..q + |marker|][0];
    forall i | p < i < p + |marker|
      ensures lower[i] != marker[0]
    {
      assert lower[i] == lower[p..p + |marker|][i - p];
    }
  }

  /** The occurrence that the search reaches is visited. */
  lemma ReachedIsVisited(s: string, lower: string, marker: string, p: nat)
    requires |s| == |lower| && AllBehind(s, lower, marker, p) && OccursAt(lower, marker, p)
    ensures IsVisited(s, lower, marker, p)
  {
    forall q: nat | q < p && ShadowReaches(s, lower, marker, q, p)
      ensures IsShadowed(s, lower, marker, q)
    {
      assert IsVisited(s, lower, marker, q) <==> !IsShadowed(s, lower, marker, q);
    }
  }

  /** Behind a visited occurrence nothing is visited before its token ends. */
  lemma StaysBehind(s: string, lower: string, marker: string, p: nat)
    requires |s| == |lower| && AllBehind(s, lower, marker, p) && marker in SCHEMES && IsVisited(s, lower, marker, p)
    ensures AllBehind(s, lower, marker, TokenEnd(s, p + |marker|))
    ensures forall q: nat :: p < q < TokenEnd(s, p + |marker|) ==> !IsVisited(s, lower, marker, q)
  {
    forall q: nat | p < q < TokenEnd(s, p + |marker|)
      ensures !IsVisited(s, lower, marker, q)
    {
      if OccursAt(lower, marker, q) {
        NoOverlap(lower, marker, p, q);
        assert ShadowReaches(s, lower, marker, p, q);
      }
    }
  }

  lemma {:induction false} SchemeFromIs(s: string, lower: string, marker: string, i: nat, x: int)
    requires i <= |s| == |lower| && AllBehind(s, lower, marker, i) && marker in SCHEMES
    ensures Covers(SchemeFrom(s, lower, marker, i), x) <==> IsSchemeToken(s, lower, marker, x, i)
    decreases |s| - i
  {
    if i < |s| {
      if OccursAt(lower, marker, i) {
        var next := TokenEnd(s, i + |marker|);
        ReachedIsVisited(s, lower, marker, i);
        StaysBehind(s, lower, marker, i);
        SchemeFromIs(s, lower, marker, next, x);
        CoversConcat(SchemeRange(s, lower, marker, i), SchemeFrom(s, lower, marker, next), x);
      } else {
        SchemeFromIs(s, lower, marker, i + 1, x);
      }
    }
  }

  /** The scheme loops cover exactly the scheme tokens. */
  lemma {:induction false} SchemesAreNaive(s: string, lower: string, markers: seq<string>, x: int)
    requires |s| == |lower| && forall m :: m in markers ==> m in SCHEMES
    ensures "" !in markers
    ensures Covers(SchemeRanges(s, lower, markers), x)
            <==> exists m :: m in markers && IsSchemeToken(s, lower, m, x, 0)
  {
    if markers != [] {
      var first, rest := markers[0], markers[1..];
      assert first in markers;
      SchemesAreNaive(s, lower, rest, x);
      SchemeFromIs(s, lower, first, 0, x);
      CoversConcat(SchemeFrom(s, lower, first, 0), SchemeRanges(s, lower, rest), x);
      assert forall m :: m in markers <==> m == first || m in rest;
    }
  }

  /**
   In a header whose name is separated from the scheme, the token is never passed over: the
   loop is complete for every occurrence with a separator in front of it.
   */
  lemma SeparatedIsVisited(s: string, lower: string, marker: string, p: nat)
    requires |s| == |lower| && marker in SCHEMES && OccursAt(lower, marker, p)
    requires AuthorizationContext(lower[..p]) && (p == 0 || !IsTokenByte(s[p - 1]))
    ensures IsVisited(s, lower, marker, p)
  {
    forall q: nat | q < p && ShadowReaches(s, lower, marker, q, p)
      ensures false
    {
      assert q + |marker| == p;
      BehindSchemeIsNoHeader(lower, marker, q);
    }
  }

  /** A scheme name right in front of another is no header name. */
  lemma BehindSchemeIsNoHeader(lower: string, marker: string, q: nat)
    requires marker in SCHEMES && OccursAt(lower, marker, q)
    ensures !AuthorizationContext(lower[..q + |marker|])
  {
    var n := |marker|;
    var before := lower[..q + n];
    assert lower[q..q + n][n - 1] == lower[q + n - 1] && lower[q..q + n][n - 2] == lower[q + n - 2];
    assert before[|before| - 1] == ' ';
    var name := before[..|before| - 1];
    assert name[|name| - 1] == lower[q + n - 2];
    assert HeaderNameEnd(name) == |name|;
    assert before[..|name|] == name;
    assert name[|name| - 1] != HEADER_NAME[|HEADER_NAME| - 1];
  }

  /** Glued to the header name inside an earlier token, an occurrence is passed over, whatever follows. */
  lemma GluedIsPassedOver(marker: string, rest: string)
    requires marker in SCHEMES
    ensures var s, p := marker + HEADER_NAME + marker + rest, |marker + HEADER_NAME|;
            OccursAt(s, marker, p) && AuthorizationContext(s[..p]) && !IsVisited(s, s, marker, p)
  {
    var s, p := marker + HEADER_NAME + marker + rest, |marker + HEADER_NAME|;
    assert s[p..p + |marker|] == marker && s[0..|marker|] == marker;
    HeaderBehindSpace(marker);
    assert s[..p] == marker + HEADER_NAME;
    GluedRun(s, marker, p);
    assert ShadowReaches(s, s, marker, 0, p) && !IsShadowed(s, s, marker, 0);
  }

  lemma GluedRun(s: string, marker: string, p: nat)
    requires marker in SCHEMES && p == |marker| + |HEADER_NAME| < |s|
    requires s[..p] == marker + HEADER_NAME && s[p] == marker[0]
    ensures TokenEnd(s, |marker|) > p
  {
    forall i | |marker| <= i <= p
      ensures IsTokenByte(s[i])
    {
      assert i < p ==> s[i] == s[..p][i] == HEADER_NAME[i - |marker|];
    }
  }

  lemma HeaderBehindSpace(marker: string)
    requires marker in SCHEMES
    ensures AuthorizationContext(marker + HEADER_NAME)
  {
    var before := marker + HEADER_NAME;
    assert before[|before| - 1] == HEADER_NAME[|HEADER_NAME| - 1];
    assert HeaderNameEnd(before) == |before| && before[..|before|] == before;
    assert before[|marker|..] == HEADER_NAME;
  }

  // ----- Its ranges are proper

  lemma SchemeRangeProper(s: string, lower: string, marker: string, at: nat)
    requires at + |marker| <= |s| == |lower|
    ensures AllProper(s, SchemeRange(s, lower, marker, at))
  {
  }

  lemma AllProperConcat(s: string, a: seq<Range>, b: seq<Range>)
    requires AllProper(s, a) && AllProper(s, b)
    ensures AllProper(s, a + b)
  {
  }

  lemma {:induction false} SchemeFromProper(s: string, lower: string, marker: string, i: nat)
    requires i <= |s| == |lower| && marker != ""
    ensures AllProper(s, SchemeFrom(s, lower, marker, i))
    decreases |s| - i
  {
    if i < |s| {
      if OccursAt(lower, marker, i) {
        var next := TokenEnd(s, i + |marker|);
        SchemeRangeProper(s, lower, marker, i);
        SchemeFromProper(s, lower, marker, next);
        AllProperConcat(s, SchemeRange(s, lower, marker, i), SchemeFrom(s, lower, marker, next));
      } else {
        SchemeFromProper(s, lower, marker, i + 1);
      }
    }
  }

  lemma {:induction false} SchemeRangesProper(s: string, lower: string, markers: seq<string>)
    requires |s| == |lower| && "" !in markers
    ensures AllProper(s, SchemeRanges(s, lower, markers))
  {
    if markers != [] {
      SchemeFromProper(s, lower, markers[0], 0);
      SchemeRangesProper(s, lower, markers[1..]);
    }
  }
}
