/**
 The key-prefix scanner of the redactor (crates/audit/src/lib.rs). A text is a
 sequence of bytes; the byte n is written as the character with code n, so an
 ASCII literal stands for itself.

 The scanner jumps: past a prefix that does not start a word, and to the end of
 every token it looked at. The reference tests each position on its own.
 */
module KeyScan {
  import opened Wrappers

  datatype Range = Range(start: nat, end: nat)

  // ----- Byte classes

  predicate IsAlnum(c: char) {
    '0' <= c <= '9' || 'a' <= c <= 'z' || 'A' <= c <= 'Z'
  }

  predicate IsTokenByte(c: char) {
    IsAlnum(c) || c == '_' || c == '-' || c == '.' || c == '/' || c == '+' || c == '='
  }

  function LowerByte(c: char): char {
    if 'A' <= c <= 'Z' then c - 'A' + 'a' else c
  }

  function Lower(s: string): (r: string)
    ensures |r| == |s| && forall i :: 0 <= i < |s| ==> r[i] == LowerByte(s[i])
  {
    seq(|s|, i requires 0 <= i < |s| => LowerByte(s[i]))
  }

  // ----- Token runs

  function TokenEnd(s: string, index: nat): (end: nat)
    requires index <= |s|
    ensures index <= end <= |s|
    ensures forall i :: index <= i < end ==> IsTokenByte(s[i])
    ensures end < |s| ==> !IsTokenByte(s[end])
    decreases |s| - index
  {
    if index == |s| || !IsTokenByte(s[index]) then index else TokenEnd(s, index + 1)
  }

  method SecretTokenEnd(s: string, from: nat) returns (index: nat)
    requires from <= |s|
    ensures index == TokenEnd(s, from)
  {
    index := from;
    while index < |s| && IsTokenByte(s[index])
      invariant from <= index <= |s|
      invariant TokenEnd(s, index) == TokenEnd(s, from)
    {
      index := index + 1;
    }
  }

  /** Sixteen token bytes from `p` on. */
  predicate LongRun(s: string, p: nat) {
    p + 16 <= |s| && forall i :: p <= i < p + 16 ==> IsTokenByte(s[i])
  }

  lemma LongRunIs(s: string, p: nat)
    requires p <= |s|
    ensures LongRun(s, p) <==> TokenEnd(s, p) - p >= 16
  {
  }

  lemma {:induction false} TokenEndInside(s: string, p: nat, q: nat)
    requires p <= |s| && p <= q <= TokenEnd(s, p)
    ensures TokenEnd(s, q) == TokenEnd(s, p)
    decreases q - p
  {
    if p < q { TokenEndInside(s, p + 1, q); }
  }

  // ----- Escapes that stand for a separator

  function HexDigit(c: char): Option<nat> {
    if '0' <= c <= '9' then Some(c as int - '0' as int)
    else if 'a' <= c <= 'f' then Some(c as int - 'a' as int + 10)
    else if 'A' <= c <= 'F' then Some(c as int - 'A' as int + 10)
    else None
  }

  function HexValue(digits: string): Option<nat> {
    if digits == "" then Some(0)
    else
      match (HexValue(digits[..|digits| - 1]), HexDigit(digits[|digits| - 1]))
      case (Some(high), Some(low)) => Some(16 * high + low)
      case _ => None
  }

  /** The digits name a character, and that character separates words. */
  predicate NamesSeparator(digits: string) {
    match HexValue(digits)
    case None => false
    case Some(code) =>
      && !(0xD800 <= code < 0xE000) && code < 0x110000
      && !(0x30 <= code <= 0x39) && !(0x41 <= code <= 0x5A) && !(0x61 <= code <= 0x7A)
  }

  predicate EndsWith(s: string, suffix: string) {
    |suffix| <= |s| && s[|s| - |suffix|..] == suffix
  }

  /** A percent sign, itself escaped any number of times. */
  predicate PercentTail(s: string) {
    EndsWith(s, "%") || (EndsWith(s, "25") && PercentTail(s[..|s| - 2]))
  }

  function Repeat25(k: nat): string {
    if k == 0 then "" else Repeat25(k - 1) + "25"
  }

  function Percent(k: nat): string { "%" + Repeat25(k) }

  /** The suffix-walking loop recognises `%`, `%25`, `%2525` and so on, and nothing else. */
  lemma PercentTailExactly(s: string)
    ensures PercentTail(s) <==> exists k: nat :: EndsWith(s, Percent(k))
  {
    if PercentTail(s) { var k := PercentDepth(s); }
    if k: nat :| EndsWith(s, Percent(k)) { PercentIsTail(s, k); }
  }

  lemma {:induction false} PercentDepth(s: string) returns (k: nat)
    requires PercentTail(s)
    ensures EndsWith(s, Percent(k))
    decreases |s|
  {
    if EndsWith(s, "%") {
      k := 0;
      assert Percent(0) == "%";
    } else {
      var before := s[..|s| - 2];
      var inner := PercentDepth(before);
      k := inner + 1;
      assert s == before + "25";
      assert Percent(k) == Percent(k - 1) + "25";
    }
  }

  lemma {:induction false} PercentIsTail(s: string, k: nat)
    requires EndsWith(s, Percent(k))
    ensures PercentTail(s)
    decreases |s|
  {
    if !EndsWith(s, "%") {
      PercentTailStep(s, k);
      PercentIsTail(s[..|s| - 2], k - 1);
    }
  }

  lemma PercentTailStep(s: string, k: nat)
    requires EndsWith(s, Percent(k)) && !EndsWith(s, "%")
    ensures k > 0 && EndsWith(s, "25") && EndsWith(s[..|s| - 2], Percent(k - 1))
  {
    assert Percent(0) == "%";
    if k > 0 {
      var tail, shorter := Percent(k), Percent(k - 1);
      assert tail == shorter + "25";
      var at := |s| - |tail|;
      assert s[at..] == tail;
      assert s[|s| - 2..] == s[at..][|tail| - 2..] == "25";
      assert s[..|s| - 2][at..] == s[at..][..|tail| - 2] == shorter;
    }
  }

  predicate IsLetterEscape(c: char) {
    c == 'b' || c == 'f' || c == 'n' || c == 'r' || c == 't'
  }

  predicate EndsWithSeparatorEscape(s: string) {
    var n := |s|;
    if n >= 2 && s[n - 2] == '\\' && IsLetterEscape(s[n - 1]) then true
    else if n >= 4 && s[n - 4] == '\\' && s[n - 3] == 'x' then NamesSeparator(s[n - 2..])
    else if n >= 6 && s[n - 6] == '\\' && s[n - 5] == 'u' then NamesSeparator(s[n - 4..])
    else n >= 2 && HexValue(s[n - 2..]).Some? && PercentTail(s[..n - 2]) && NamesSeparator(s[n - 2..])
  }

  method SeparatorEscape(bytes: string) returns (b: bool)
    ensures b == EndsWithSeparatorEscape(bytes)
  {
    var n := |bytes|;
    if n >= 2 && bytes[n - 2] == '\\' && IsLetterEscape(bytes[n - 1]) { return true; }
    if n >= 4 && bytes[n - 4] == '\\' && bytes[n - 3] == 'x' { return NamesSeparator(bytes[n - 2..]); }
    if n >= 6 && bytes[n - 6] == '\\' && bytes[n - 5] == 'u' { return NamesSeparator(bytes[n - 4..]); }
    if n < 2 || HexValue(bytes[n - 2..]).None? { return false; }
    var percent := WalkPercent(bytes[..n - 2]);
    return percent && NamesSeparator(bytes[n - 2..]);
  }

  /** The suffix-walking loop. */
  method WalkPercent(bytes: string) returns (b: bool)
    ensures b == PercentTail(bytes)
  {
    var rest := bytes;
    while true
      invariant PercentTail(rest) == PercentTail(bytes)
      decreases |rest|
    {
      if EndsWith(rest, "%") { return true; }
      if !EndsWith(rest, "25") { return false; }
      rest := rest[..|rest| - 2];
    }
  }

  lemma HexValueNeedsDigits(digits: string)
    requires digits != "" && HexDigit(digits[|digits| - 1]).None?
    ensures HexValue(digits).None? && !NamesSeparator(digits)
  {
  }

  lemma NoEscapeEndsIn(s: string)
    requires s != "" && HexDigit(s[|s| - 1]).None? && !IsLetterEscape(s[|s| - 1])
    ensures !EndsWithSeparatorEscape(s)
  {
    var n := |s|;
    if n >= 2 { HexValueNeedsDigits(s[n - 2..]); }
    if n >= 4 { HexValueNeedsDigits(s[n - 4..]); }
  }

  // ----- Key prefixes

  const KEY_PREFIXES: seq<string> :=
    ["sk-", "github_pat_", "ghp_", "gho_", "ghu_", "ghs_", "ghr_", "glpat-", "hf_",
     "xoxb-", "xoxp-", "xoxa-", "xoxr-", "akia", "aiza"]

  predicate OccursAt(s: string, marker: string, i: nat) {
    i + |marker| <= |s| && s[i..i + |marker|] == marker
  }

  /** `s[from..].find(marker)`, as a position in `s`. */
  function Find(s: string, marker: string, from: nat): (r: Option<nat>)
    requires from <= |s|
    ensures r.Some? ==> from <= r.value && OccursAt(s, marker, r.value)
    decreases |s| - from
  {
    if OccursAt(s, marker, from) then Some(from)
    else if from == |s| then None
    else Find(s, marker, from + 1)
  }

  /** No occurrence comes before the one that is found. */
  lemma {:induction false} FindIsFirst(s: string, marker: string, from: nat, i: nat)
    requires from <= |s| && from <= i
    requires Find(s, marker, from).Some? ==> i < Find(s, marker, from).value
    ensures !OccursAt(s, marker, i)
    decreases |s| - from
  {
    if from < i && from < |s| { FindIsFirst(s, marker, from + 1, i); }
  }

  predicate StartsWord(s: string, p: nat)
    requires p <= |s|
  {
    p == 0 || !IsAlnum(s[p - 1]) || EndsWithSeparatorEscape(s[..p])
  }

  /** A key starts at `p`: the reference the scanner is held to. */
  predicate KeyAt(s: string, marker: string, p: nat) {
    && p <= |s|
    && OccursAt(Lower(s), marker, p)
    && StartsWord(s, p)
    && TokenEnd(s, p) - p >= 16
  }

  ghost predicate Covers(ranges: seq<Range>, x: int) {
    exists r :: r in ranges && r.start <= x < r.end
  }

  ghost predicate InKey(s: string, marker: string, x: int, from: nat) {
    exists p :: from <= p && KeyAt(s, marker, p) && p <= x < TokenEnd(s, p)
  }

  function NextOffset(s: string, marker: string, start: nat): (offset: nat)
    requires start + |marker| <= |s|
    ensures start + |marker| <= offset <= |s|
  {
    if !StartsWord(s, start) then start + |marker|
    else if TokenEnd(s, start) > start + |marker| then TokenEnd(s, start)
    else start + |marker|
  }

  function FoundKey(s: string, start: nat): seq<Range>
    requires start <= |s|
  {
    if StartsWord(s, start) && TokenEnd(s, start) - start >= 16 then [Range(start, TokenEnd(s, start))] else []
  }

  function ScanFrom(s: string, marker: string, offset: nat): seq<Range>
    requires offset <= |s| && marker != ""
    decreases |s| - offset
  {
    match Find(Lower(s), marker, offset)
    case None => []
    case Some(start) => FoundKey(s, start) + ScanFrom(s, marker, NextOffset(s, marker, start))
  }

  function ScanKeys(s: string, markers: seq<string>): seq<Range>
    requires "" !in markers
  {
    if markers == [] then [] else ScanFrom(s, markers[0], 0) + ScanKeys(s, markers[1..])
  }

  /** What the loop does with one occurrence of the prefix. */
  method VisitOccurrence(s: string, marker: string, start: nat) returns (found: seq<Range>, next: nat)
    requires start + |marker| <= |s|
    ensures found == FoundKey(s, start) && next == NextOffset(s, marker, start)
  {
    if start > 0 && IsAlnum(s[start - 1]) {
      var escaped := SeparatorEscape(s[..start]);
      if !escaped { return [], start + |marker|; }
    }
    var end := SecretTokenEnd(s, start);
    found := if end - start >= 16 then [Range(start, end)] else [];
    next := if end > start + |marker| then end else start + |marker|;
  }

  /** The loop over one prefix. */
  method ScanMarker(s: string, marker: string) returns (ranges: seq<Range>)
    requires marker != ""
    ensures ranges == ScanFrom(s, marker, 0)
  {
    ranges := [];
    var offset := 0;
    var lower := Lower(s);
    var found := Find(lower, marker, offset);
    while found.Some?
      invariant offset <= |s| && found == Find(lower, marker, offset)
      invariant ranges + ScanFrom(s, marker, offset) == ScanFrom(s, marker, 0)
      decreases |s| - offset
    {
      var more, next := VisitOccurrence(s, marker, found.value);
      AppendRanges(ranges, more, ScanFrom(s, marker, next));
      ranges := ranges + more;
      offset := next;
      found := Find(lower, marker, offset);
    }
    assert ranges + [] == ranges;
  }

  method ScanKeyPrefixes(s: string, markers: seq<string>) returns (ranges: seq<Range>)
    requires "" !in markers
    ensures ranges == ScanKeys(s, markers)
  {
    ranges := [];
    for k := 0 to |markers|
      invariant ranges + ScanKeys(s, markers[k..]) == ScanKeys(s, markers)
    {
      assert markers[k..][1..] == markers[k + 1..];
      var more := ScanMarker(s, markers[k]);
      AppendRanges(ranges, more, ScanKeys(s, markers[k + 1..]));
      ranges := ranges + more;
    }
    assert markers[|markers|..] == [];
    assert ranges + [] == ranges;
  }

  // ----- The scanner covers exactly what the reference covers

  predicate TokenWord(marker: string) {
    forall c :: c in marker ==> IsTokenByte(c)
  }

  lemma PrefixesAreTokens(marker: string)
    requires marker in KEY_PREFIXES
    ensures marker != "" && TokenWord(marker)
  {
  }

  lemma LowerToken(c: char)
    requires IsTokenByte(LowerByte(c))
    ensures IsTokenByte(c)
  {
  }

  /** A prefix is itself made of token bytes, so its token reaches past it. */
  lemma TokenPastPrefix(s: string, marker: string, p: nat)
    requires p <= |s| && OccursAt(Lower(s), marker, p) && TokenWord(marker)
    ensures TokenEnd(s, p) >= p + |marker|
  {
    forall i | p <= i < p + |marker|
      ensures IsTokenByte(s[i])
    {
      assert Lower(s)[i] == Lower(s)[p..p + |marker|][i - p] == marker[i - p];
      assert marker[i - p] in marker;
      LowerToken(s[i]);
    }
  }

  /** Only the prefixes `akia` and `aiza` overlap themselves, by their last letter. */
  lemma SelfOverlap(marker: string, d: nat)
    requires marker in KEY_PREFIXES && 0 < d < |marker|
    requires forall i :: 0 <= i < |marker| - d ==> marker[d + i] == marker[i]
    ensures (marker == "akia" || marker == "aiza") && d == 3
  {
    assert marker[d + 0] == marker[0];
    assert d + 1 < |marker| ==> marker[d + 1] == marker[1];
  }

  lemma OverlapRepeats(lower: string, marker: string, start: nat, p: nat)
    requires OccursAt(lower, marker, start) && OccursAt(lower, marker, p) && start < p < start + |marker|
    ensures forall i :: 0 <= i < |marker| - (p - start) ==> marker[p - start + i] == marker[i]
  {
    var d := p - start;
    forall i | 0 <= i < |marker| - d
      ensures marker[d + i] == marker[i]
    {
      assert lower[start + d + i] == lower[start..start + |marker|][d + i];
      assert lower[p + i] == lower[p..p + |marker|][i];
    }
  }

  /** A prefix hidden behind an overlapping one never starts a word. */
  lemma OverlapIsNoKey(s: string, marker: string, start: nat, p: nat)
    requires marker in KEY_PREFIXES
    requires OccursAt(Lower(s), marker, start) && start < p < start + |marker|
    ensures !KeyAt(s, marker, p)
  {
    if KeyAt(s, marker, p) {
      var lower, d := Lower(s), p - start;
      OverlapRepeats(lower, marker, start, p);
      SelfOverlap(marker, d);
      assert lower[start + 2] == lower[start..start + |marker|][2] == marker[2];
      assert LowerByte(s[p - 1]) == 'i' || LowerByte(s[p - 1]) == 'z';
      NoEscapeEndsIn(s[..p]);
      assert false;
    }
  }

  /** The jump after a prefix loses no key position that is not covered already. */
  lemma JumpLosesNothing(s: string, marker: string, start: nat, p: nat, x: int)
    requires marker in KEY_PREFIXES && start <= |s|
    requires OccursAt(Lower(s), marker, start)
    requires start <= p < NextOffset(s, marker, start)
    requires KeyAt(s, marker, p) && p <= x < TokenEnd(s, p)
    ensures Covers(FoundKey(s, start), x)
  {
    PrefixesAreTokens(marker);
    if !StartsWord(s, start) {
      if p > start { OverlapIsNoKey(s, marker, start, p); }
      assert false;
    }
    TokenPastPrefix(s, marker, start);
    TokenEndInside(s, start, p);
    assert Range(start, TokenEnd(s, start)) in FoundKey(s, start);
  }

  lemma AppendRanges(ranges: seq<Range>, more: seq<Range>, rest: seq<Range>)
    ensures ranges + (more + rest) == ranges + more + rest
  {
  }

  lemma CoversConcat(a: seq<Range>, b: seq<Range>, x: int)
    ensures Covers(a + b, x) <==> Covers(a, x) || Covers(b, x)
  {
    if Covers(a, x) {
      var r :| r in a && r.start <= x < r.end;
      assert r in a + b;
    }
    if Covers(b, x) {
      var r :| r in b && r.start <= x < r.end;
      assert r in a + b;
    }
  }

  lemma {:induction false} ScanSound(s: string, marker: string, offset: nat, x: int)
    requires offset <= |s| && marker != ""
    requires Covers(ScanFrom(s, marker, offset), x)
    ensures InKey(s, marker, x, offset)
    decreases |s| - offset
  {
    var start := Find(Lower(s), marker, offset).value;
    var next := NextOffset(s, marker, start);
    CoversConcat(FoundKey(s, start), ScanFrom(s, marker, next), x);
    if Covers(FoundKey(s, start), x) {
      assert KeyAt(s, marker, start);
    } else {
      ScanSound(s, marker, next, x);
    }
  }

  lemma {:induction false} ScanComplete(s: string, marker: string, offset: nat, p: nat, x: int)
    requires offset <= p && offset <= |s| && marker in KEY_PREFIXES && marker != ""
    requires KeyAt(s, marker, p) && p <= x < TokenEnd(s, p)
    ensures Covers(ScanFrom(s, marker, offset), x)
    decreases |s| - offset
  {
    var found := Find(Lower(s), marker, offset);
    if found.None? || p < found.value { FindIsFirst(Lower(s), marker, offset, p); }
    var start := found.value;
    var next := NextOffset(s, marker, start);
    CoversConcat(FoundKey(s, start), ScanFrom(s, marker, next), x);
    if p < next {
      JumpLosesNothing(s, marker, start, p, x);
    } else {
      ScanComplete(s, marker, next, p, x);
    }
  }

  /** Jumping over tokens and failed prefixes covers exactly the naive set of bytes. */
  lemma ScanIsNaive(s: string, marker: string, x: int)
    requires marker in KEY_PREFIXES
    ensures marker != ""
    ensures Covers(ScanFrom(s, marker, 0), x) <==> InKey(s, marker, x, 0)
  {
    PrefixesAreTokens(marker);
    if Covers(ScanFrom(s, marker, 0), x) { ScanSound(s, marker, 0, x); }
    if InKey(s, marker, x, 0) {
      var p :| 0 <= p && KeyAt(s, marker, p) && p <= x < TokenEnd(s, p);
      ScanComplete(s, marker, 0, p, x);
    }
  }

  ghost predicate InSomeKey(s: string, markers: seq<string>, x: int) {
    exists m :: m in markers && InKey(s, m, x, 0)
  }

  lemma {:induction false} ScanKeysIsNaive(s: string, markers: seq<string>, x: int)
    requires forall m :: m in markers ==> m in KEY_PREFIXES
    ensures "" !in markers
    ensures Covers(ScanKeys(s, markers), x) <==> InSomeKey(s, markers, x)
  {
    if "" in markers { PrefixesAreTokens(""); }
    if markers != [] {
      ScanIsNaive(s, markers[0], x);
      ScanKeysIsNaive(s, markers[1..], x);
      CoversConcat(ScanFrom(s, markers[0], 0), ScanKeys(s, markers[1..]), x);
      if InSomeKey(s, markers, x) {
        var m :| m in markers && InKey(s, m, x, 0);
        if m != markers[0] { assert m in markers[1..]; }
      }
    }
  }

  // ----- Where ranges may start and end

  /** One side of the cut is ASCII, so no character of a UTF-8 text is torn there. */
  predicate Cuttable(s: string, i: nat) {
    i <= |s| && (i == 0 || i == |s| || s[i] as int < 0x80 || s[i - 1] as int < 0x80)
  }

  /** A range of the text that no token runs out of. */
  predicate Proper(s: string, r: Range) {
    && r.start < r.end <= |s|
    && (r.end < |s| ==> !IsTokenByte(s[r.end]))
    && Cuttable(s, r.start) && Cuttable(s, r.end)
  }

  predicate AllProper(s: string, ranges: seq<Range>) {
    forall r :: r in ranges ==> Proper(s, r)
  }

  lemma {:induction false} ScanFromProper(s: string, marker: string, offset: nat)
    requires offset <= |s| && marker != ""
    ensures AllProper(s, ScanFrom(s, marker, offset))
    decreases |s| - offset
  {
    match Find(Lower(s), marker, offset) {
      case None =>
      case Some(start) => ScanFromProper(s, marker, NextOffset(s, marker, start));
    }
  }

  lemma {:induction false} ScanKeysProper(s: string, markers: seq<string>)
    requires "" !in markers
    ensures AllProper(s, ScanKeys(s, markers))
  {
    if markers != [] {
      ScanFromProper(s, markers[0], 0);
      ScanKeysProper(s, markers[1..]);
    }
  }
}
