/**
 Keys that are left in a redacted text (crates/audit/src/lib.rs, `redact_text`).
 A key starts a word, where an escape such as `%20` in front of it also counts as a
 separator. Hiding a value can uncover such an escape: the arm for `\u` reads four
 bytes, across a line break, and while it applies the arm for `%` is not tried.
 */
module KeySurvivors {
  import opened KeyScan
  import opened RangeMerge
  import opened AssignmentScan
  import opened SchemeScan
  import opened Redaction

  // ----- Where kept bytes go

  function Piece(s: string, hidden: set<nat>, i: nat): string
    requires i < |s|
  {
    if i !in hidden then [s[i]] else if i == 0 || i - 1 !in hidden then REDACTED else ""
  }

  /** What is written of the bytes in front of `p`; its length is the place of byte `p`. */
  function Before(s: string, hidden: set<nat>, p: nat): string
    requires p <= |s|
  {
    if p == 0 then "" else Before(s, hidden, p - 1) + Piece(s, hidden, p - 1)
  }

  lemma {:induction false} PaintSplit(s: string, hidden: set<nat>, p: nat)
    requires p <= |s|
    ensures Before(s, hidden, p) + Paint(s, hidden, p) == Paint(s, hidden, 0)
  {
    if p > 0 {
      PaintSplit(s, hidden, p - 1);
      assert Paint(s, hidden, p - 1) == Piece(s, hidden, p - 1) + Paint(s, hidden, p);
    }
  }

  lemma LongRunBehind(first: string, rest: string, q: nat)
    requires q >= |first| && LongRun(first + rest, q)
    ensures LongRun(rest, q - |first|)
  {
    forall i | q - |first| <= i < q - |first| + 16
      ensures IsTokenByte(rest[i])
    {
      assert rest[i] == (first + rest)[|first| + i];
    }
  }

  lemma NoRunInMarker(rest: string, q: nat)
    requires q < |REDACTED|
    ensures !LongRun(REDACTED + rest, q)
  {
    assert (REDACTED + rest)[9] == ']';
  }

  /** A long token run of the painted text starts with a kept byte. */
  lemma {:induction false} Locate(s: string, hidden: set<nat>, from: nat, q: nat) returns (p: nat)
    requires from <= |s| && LongRun(Paint(s, hidden, from), q)
    ensures from <= p < |s| && p !in hidden && |Paint(s, hidden, p)| + q == |Paint(s, hidden, from)|
    decreases |s| - from
  {
    var first, rest := Piece(s, hidden, from), Paint(s, hidden, from + 1);
    assert Paint(s, hidden, from) == first + rest;
    if q >= |first| {
      LongRunBehind(first, rest, q);
      p := Locate(s, hidden, from + 1, q - |first|);
    } else {
      if from in hidden { NoRunInMarker(rest, q); }
      p := from;
    }
  }

  /** Behind a hidden byte stands the end of a marker. */
  lemma {:induction false} MarkerEnds(s: string, hidden: set<nat>, p: nat)
    requires 0 < p <= |s| && p - 1 in hidden
    ensures Before(s, hidden, p) != "" && Before(s, hidden, p)[|Before(s, hidden, p)| - 1] == ']'
  {
    if p > 1 && p - 2 in hidden { MarkerEnds(s, hidden, p - 1); }
  }

  lemma {:induction false} KeptBefore(s: string, hidden: set<nat>, from: nat, p: nat)
    requires from <= p <= |s| && forall x :: from <= x < p ==> x !in hidden
    ensures Before(s, hidden, p) == Before(s, hidden, from) + s[from..p]
    decreases p
  {
    if from < p {
      KeptBefore(s, hidden, from, p - 1);
      assert s[from..p] == s[from..p - 1] + [s[p - 1]];
    }
  }

  /** The start of the kept stretch that ends in front of `p`. */
  function KeptFrom(hidden: set<nat>, p: nat): (from: nat)
    ensures from <= p && (forall x :: from <= x < p ==> x !in hidden) && (from > 0 ==> from - 1 in hidden)
  {
    if p == 0 || p - 1 in hidden then p else KeptFrom(hidden, p - 1)
  }

  // ----- Escapes at the end of two texts with a common tail

  /** The last `n` bytes agree; the first text is nothing else, or has a marker in front of them. */
  predicate SameTail(t: string, u: string, n: nat) {
    && n <= |t| && n <= |u|
    && t[|t| - n..] == u[|u| - n..]
    && ((n == |t| && n == |u|) || (n < |t| && t[|t| - n - 1] == ']'))
  }

  lemma TailAt(t: string, u: string, n: nat, k: nat)
    requires SameTail(t, u, n) && 0 < k <= n
    ensures t[|t| - k] == u[|u| - k]
  {
    assert t[|t| - n..][n - k] == u[|u| - n..][n - k];
  }

  lemma TailSlice(t: string, u: string, n: nat, k: nat)
    requires SameTail(t, u, n) && k <= n
    ensures t[|t| - k..] == u[|u| - k..]
  {
    assert t[|t| - k..] == t[|t| - n..][n - k..];
    assert u[|u| - k..] == u[|u| - n..][n - k..];
  }

  /** Where the first text holds no closing bracket, the two agree. */
  lemma TailReaches(t: string, u: string, n: nat, k: nat)
    requires SameTail(t, u, n) && k <= |t|
    requires forall i :: |t| - k <= i < |t| ==> t[i] != ']'
    ensures k <= n
  {
  }

  lemma ShorterTail(t: string, u: string, n: nat)
    requires SameTail(t, u, n) && n >= 2
    ensures SameTail(t[..|t| - 2], u[..|u| - 2], n - 2)
  {
    var a, b := t[..|t| - 2], u[..|u| - 2];
    assert a[|a| - (n - 2)..] == t[|t| - n..][..n - 2];
    assert b[|b| - (n - 2)..] == u[|u| - n..][..n - 2];
  }

  lemma TwoDigits(digits: string)
    requires |digits| == 2 && HexValue(digits).Some?
    ensures HexDigit(digits[0]).Some? && HexDigit(digits[1]).Some?
  {
    assert HexValue(digits[..1]).Some?;
  }

  lemma FourDigits(digits: string)
    requires |digits| == 4 && HexValue(digits).Some?
    ensures forall i :: 0 <= i < 4 ==> HexDigit(digits[i]).Some?
  {
    var three := digits[..3];
    assert HexValue(three).Some? && HexValue(three[..2]).Some?;
    TwoDigits(three[..2]);
  }

  /** The percent sign of the first text is in the common tail, however often it is escaped. */
  ghost predicate PercentStands(t: string, u: string, n: nat) {
    && 0 < n <= |t| && PercentTail(u)
    && (t[|t| - 1] == '%' || (t[|t| - 1] == '5' && n >= 3 && t[|t| - 2] == '2' && (t[|t| - 3] == '%' || t[|t| - 3] == '5')))
  }

  lemma PlainPercent(t: string, u: string, n: nat)
    requires SameTail(t, u, n) && EndsWith(t, "%")
    ensures PercentStands(t, u, n)
  {
    assert t[|t| - 1] == t[|t| - 1..][0];
    TailReaches(t, u, n, 1);
    TailSlice(t, u, n, 1);
  }

  lemma TailHolds25(t: string, u: string, n: nat)
    requires SameTail(t, u, n) && EndsWith(t, "25")
    ensures n >= 2 && t[|t| - 2] == '2' && t[|t| - 1] == '5' && EndsWith(u, "25")
  {
    assert t[|t| - 2] == t[|t| - 2..][0] && t[|t| - 1] == t[|t| - 2..][1];
    TailReaches(t, u, n, 2);
    TailSlice(t, u, n, 2);
  }

  lemma {:induction false} PercentInTail(t: string, u: string, n: nat)
    requires SameTail(t, u, n) && PercentTail(t)
    ensures PercentStands(t, u, n)
    decreases |t|
  {
    if EndsWith(t, "%") {
      PlainPercent(t, u, n);
    } else {
      TailHolds25(t, u, n);
      ShorterTail(t, u, n);
      var a, b := t[..|t| - 2], u[..|u| - 2];
      PercentInTail(a, b, n - 2);
      assert a[|a| - 1] == t[|t| - 3];
    }
  }

  /** The arm for letters. */
  lemma LetterArm(t: string, u: string, n: nat)
    requires SameTail(t, u, n) && |t| >= 2 && t[|t| - 2] == '\\' && IsLetterEscape(t[|t| - 1])
    ensures EndsWithSeparatorEscape(u)
  {
    TailReaches(t, u, n, 2);
    TailAt(t, u, n, 1);
    TailAt(t, u, n, 2);
  }

  /** The arm for `\x`. */
  lemma HexArm(t: string, u: string, n: nat)
    requires SameTail(t, u, n) && |t| >= 4 && t[|t| - 4] == '\\' && t[|t| - 3] == 'x' && NamesSeparator(t[|t| - 2..])
    ensures EndsWithSeparatorEscape(u)
  {
    var digits := t[|t| - 2..];
    TwoDigits(digits);
    assert t[|t| - 2] == digits[0] && t[|t| - 1] == digits[1];
    TailReaches(t, u, n, 4);
    TailAt(t, u, n, 4);
    TailAt(t, u, n, 3);
    TailAt(t, u, n, 2);
    TailSlice(t, u, n, 2);
  }

  /** The arm for `\u`. */
  lemma UnicodeArm(t: string, u: string, n: nat)
    requires SameTail(t, u, n) && |t| >= 6 && t[|t| - 6] == '\\' && t[|t| - 5] == 'u' && NamesSeparator(t[|t| - 4..])
    ensures EndsWithSeparatorEscape(u)
  {
    var digits := t[|t| - 4..];
    FourDigits(digits);
    assert t[|t| - 4] == digits[0] && t[|t| - 3] == digits[1] && t[|t| - 2] == digits[2] && t[|t| - 1] == digits[3];
    TailReaches(t, u, n, 6);
    TailAt(t, u, n, 6);
    TailAt(t, u, n, 5);
    TailAt(t, u, n, 4);
    TailAt(t, u, n, 2);
    TailSlice(t, u, n, 4);
  }

  /** What hides the percent escape in the second text. */
  ghost predicate UnicodeHead(u: string) {
    |u| >= 6 && u[|u| - 6] == '\\' && u[|u| - 5] == 'u' && u[|u| - 3] == '%' && NamesSeparator(u[|u| - 2..])
  }

  lemma PercentArm(t: string, u: string, n: nat)
    requires SameTail(t, u, n) && |t| >= 2 && PercentTail(t[..|t| - 2]) && NamesSeparator(t[|t| - 2..])
    requires !(|t| >= 6 && t[|t| - 6] == '\\' && t[|t| - 5] == 'u') && !EndsWithSeparatorEscape(u)
    ensures UnicodeHead(u) && 3 <= n < 6
  {
    var a, m := t[..|t| - 2], |t| - 2;
    TwoDigits(t[|t| - 2..]);
    assert t[|t| - 2..][0] == t[|t| - 2] && t[|t| - 2..][1] == t[|t| - 1];
    TailReaches(t, u, n, 2);
    ShorterTail(t, u, n);
    PercentInTail(a, u[..|u| - 2], n - 2);
    assert a[m - 1] == t[|t| - 3] && (m >= 2 ==> a[m - 2] == t[|t| - 4]) && (m >= 3 ==> a[m - 3] == t[|t| - 5]);
    TailSlice(t, u, n, 2);
    TailAt(t, u, n, 2);
    TailAt(t, u, n, 3);
    if n >= 5 { TailAt(t, u, n, 5); }
  }

  /** An escape ends the first text and not the second only when the arm for `\u` gets in the way. */
  lemma EscapeUncovered(t: string, u: string, n: nat)
    requires SameTail(t, u, n) && EndsWithSeparatorEscape(t) && !EndsWithSeparatorEscape(u)
    ensures UnicodeHead(u) && 3 <= n < 6
  {
    if |t| >= 2 && t[|t| - 2] == '\\' && IsLetterEscape(t[|t| - 1]) {
      LetterArm(t, u, n);
    } else if |t| >= 4 && t[|t| - 4] == '\\' && t[|t| - 3] == 'x' {
      HexArm(t, u, n);
    } else if |t| >= 6 && t[|t| - 6] == '\\' && t[|t| - 5] == 'u' {
      UnicodeArm(t, u, n);
    } else {
      PercentArm(t, u, n);
    }
  }

  // ----- A key of the painted text

  /** No key is shown. */
  ghost predicate HidesKeys(s: string, hidden: set<nat>) {
    forall marker, p :: marker in KEY_PREFIXES && KeyAt(s, marker, p) ==> p in hidden
  }

  /** No token runs out of a hidden stretch. */
  ghost predicate StopsTokens(s: string, hidden: set<nat>) {
    forall p: nat :: 0 < p < |s| && p - 1 in hidden && p !in hidden ==> !IsTokenByte(s[p])
  }

  predicate KeptLong(s: string, hidden: set<nat>, p: nat) {
    p + 16 <= |s| && forall i :: p <= i < p + 16 ==> i !in hidden
  }

  lemma {:induction false} RunIsVerbatim(s: string, hidden: set<nat>, from: nat, n: nat)
    requires from <= |s| && (from < |s| ==> from !in hidden)
    requires n <= |Paint(s, hidden, from)|
    requires forall i :: 0 <= i < n ==> IsTokenByte(Paint(s, hidden, from)[i])
    ensures from + n <= |s| && forall i :: from <= i < from + n ==> i !in hidden
    decreases |s| - from
  {
    if n > 0 {
      PaintShown(s, hidden, from);
      var rest := Paint(s, hidden, from + 1);
      var painted := Paint(s, hidden, from);
      forall i | 0 <= i < n - 1
        ensures IsTokenByte(rest[i])
      {
        assert painted[i + 1] == rest[i];
      }
      if from + 1 < |s| && from + 1 in hidden {
        assert rest[0] == '[';
        assert n == 1;
      } else {
        RunIsVerbatim(s, hidden, from + 1, n - 1);
      }
    }
  }

  /** The byte of the text that a long run of the output starts with. */
  lemma LocateKey(s: string, hidden: set<nat>, q: nat) returns (p: nat)
    requires LongRun(Paint(s, hidden, 0), q)
    ensures KeptLong(s, hidden, p) && q == |Before(s, hidden, p)|
  {
    p := Locate(s, hidden, 0, q);
    PaintSplit(s, hidden, p);
    var t, rest := Paint(s, hidden, 0), Paint(s, hidden, p);
    forall i | 0 <= i < 16
      ensures IsTokenByte(rest[i])
    {
      assert rest[i] == t[q + i];
    }
    RunIsVerbatim(s, hidden, p, 16);
  }

  lemma SliceBetween(a: string, b: string, c: string)
    ensures (a + (b + c))[|a|..|a| + |b|] == b && (a + (b + c))[..|a|] == a
  {
  }

  /** The place of a kept run in the painted text. */
  lemma KeptRun(s: string, hidden: set<nat>, p: nat)
    requires KeptLong(s, hidden, p)
    ensures var t, q := Paint(s, hidden, 0), |Before(s, hidden, p)|;
            q + 16 <= |t| && t[q..q + 16] == s[p..p + 16] && t[..q] == Before(s, hidden, p)
  {
    PaintSplit(s, hidden, p);
    PaintGap(s, hidden, p, p + 16);
    SliceBetween(Before(s, hidden, p), s[p..p + 16], Paint(s, hidden, p + 16));
  }

  lemma SameBytes(s: string, t: string, from: nat, q: nat, i: nat)
    requires from + 16 <= |s| && q + 16 <= |t| && t[q..q + 16] == s[from..from + 16] && i < 16
    ensures t[q + i] == s[from + i]
  {
    assert t[q + i] == t[q..q + 16][i];
  }

  lemma OccursInBoth(s: string, t: string, marker: string, from: nat, q: nat)
    requires from + 16 <= |s| && q + 16 <= |t| && |marker| <= 16
    requires t[q..q + 16] == s[from..from + 16]
    ensures OccursAt(Lower(t), marker, q) <==> OccursAt(Lower(s), marker, from)
  {
    var a, b := Lower(t)[q..q + |marker|], Lower(s)[from..from + |marker|];
    forall i | 0 <= i < |marker|
      ensures a[i] == b[i]
    {
      SameBytes(s, t, from, q, i);
    }
    assert a == b;
  }

  lemma LongRunInBoth(s: string, t: string, from: nat, q: nat)
    requires from + 16 <= |s| && q + 16 <= |t| && t[q..q + 16] == s[from..from + 16]
    ensures LongRun(t, q) <==> LongRun(s, from)
  {
    if LongRun(t, q) {
      forall i | from <= i < from + 16
        ensures IsTokenByte(s[i])
      {
        SameBytes(s, t, from, q, i - from);
      }
    }
    if LongRun(s, from) {
      forall i | q <= i < q + 16
        ensures IsTokenByte(t[i])
      {
        SameBytes(s, t, from, q, i - q);
      }
    }
  }

  lemma PrefixesAreShort(marker: string)
    requires marker in KEY_PREFIXES
    ensures 0 < |marker| <= 16
  {
  }

  ghost predicate StartsOutputWord(s: string, hidden: set<nat>, p: nat)
    requires p <= |s|
  {
    var b := Before(s, hidden, p);
    b == "" || !IsAlnum(b[|b| - 1]) || EndsWithSeparatorEscape(b)
  }

  /** A kept run opens a key of the painted text exactly when a word starts there. */
  lemma KeptKey(s: string, hidden: set<nat>, marker: string, p: nat)
    requires KeptLong(s, hidden, p) && marker in KEY_PREFIXES
    ensures KeyAt(Paint(s, hidden, 0), marker, |Before(s, hidden, p)|) <==>
              OccursAt(Lower(s), marker, p) && LongRun(s, p) && StartsOutputWord(s, hidden, p)
  {
    var t, q := Paint(s, hidden, 0), |Before(s, hidden, p)|;
    KeptRun(s, hidden, p);
    PrefixesAreShort(marker);
    OccursInBoth(s, t, marker, p, q);
    LongRunInBoth(s, t, p, q);
    LongRunIs(t, q);
    assert q > 0 ==> t[q - 1] == t[..q][q - 1];
  }

  lemma TailOfConcat(a: string, b: string, w: string)
    requires (a == "" && b == "") || (a != "" && a[|a| - 1] == ']')
    ensures SameTail(a + w, b + w, |w|)
  {
    assert (a + w)[|a|..] == w && (b + w)[|b|..] == w;
  }

  /** In front of a kept byte, output and text have a common tail. */
  lemma CommonTail(s: string, hidden: set<nat>, p: nat)
    requires p <= |s|
    ensures SameTail(Before(s, hidden, p), s[..p], p - KeptFrom(hidden, p))
  {
    var from := KeptFrom(hidden, p);
    var a, b, w := Before(s, hidden, from), s[..from], s[from..p];
    assert s[..p] == b + w;
    KeptBefore(s, hidden, from, p);
    if from > 0 { MarkerEnds(s, hidden, from); }
    TailOfConcat(a, b, w);
  }

  lemma ShownStartsNoWord(s: string, hidden: set<nat>, marker: string, p: nat)
    requires HidesKeys(s, hidden) && marker in KEY_PREFIXES && p !in hidden
    requires p <= |s| && OccursAt(Lower(s), marker, p) && LongRun(s, p)
    ensures !StartsWord(s, p)
  {
    LongRunIs(s, p);
  }

  lemma OutputWordIsEscape(s: string, hidden: set<nat>, p: nat)
    requires StopsTokens(s, hidden) && p < |s| && IsTokenByte(s[p]) && p !in hidden
    requires !StartsWord(s, p) && StartsOutputWord(s, hidden, p)
    ensures EndsWithSeparatorEscape(Before(s, hidden, p))
  {
    assert p - 1 !in hidden;
    assert Before(s, hidden, p) == Before(s, hidden, p - 1) + [s[p - 1]];
  }

  /** A key of the output that is no key of the text stands behind an escape that was uncovered. */
  lemma NewKeyIsUncovered(s: string, hidden: set<nat>, marker: string, p: nat)
    requires HidesKeys(s, hidden) && StopsTokens(s, hidden) && marker in KEY_PREFIXES && KeptLong(s, hidden, p)
    requires OccursAt(Lower(s), marker, p) && LongRun(s, p) && StartsOutputWord(s, hidden, p)
    ensures UnicodeHead(s[..p]) && 3 <= p - KeptFrom(hidden, p) < 6
  {
    ShownStartsNoWord(s, hidden, marker, p);
    OutputWordIsEscape(s, hidden, p);
    CommonTail(s, hidden, p);
    EscapeUncovered(Before(s, hidden, p), s[..p], p - KeptFrom(hidden, p));
  }

  // ----- What is hidden

  lemma KeyStartsHidden(s: string, marker: string, p: nat)
    requires marker in KEY_PREFIXES && KeyAt(s, marker, p)
    ensures p in Hidden(s)
  {
    assert p < TokenEnd(s, p);
    assert InKey(s, marker, p, 0);
    assert InSomeKey(s, KEY_PREFIXES, p);
  }

  lemma HiddenStopsTokens(s: string, p: nat)
    requires 0 < p < |s| && p - 1 in Hidden(s) && p !in Hidden(s)
    ensures !IsTokenByte(s[p])
  {
    AllRangesProper(s);
    RangesAreHidden(s, p - 1);
    RangesAreHidden(s, p);
    var r :| r in AllRanges(s) && r.start <= p - 1 < r.end;
    assert Proper(s, r);
    assert r.end == p;
  }

  lemma HiddenHidesKeys(s: string)
    ensures HidesKeys(s, Hidden(s)) && StopsTokens(s, Hidden(s))
  {
    forall marker, p | marker in KEY_PREFIXES && KeyAt(s, marker, p)
      ensures p in Hidden(s)
    {
      KeyStartsHidden(s, marker, p);
    }
    forall p: nat | 0 < p < |s| && p - 1 in Hidden(s) && p !in Hidden(s)
      ensures !IsTokenByte(s[p])
    {
      HiddenStopsTokens(s, p);
    }
  }

  /** A byte of a key is in a stretch of at least 16 hidden token bytes. */
  lemma KeyStretch(s: string, x: nat) returns (p: nat, end: nat)
    requires InSomeKey(s, KEY_PREFIXES, x)
    ensures p <= x < end <= |s| && p + 16 <= end
    ensures forall i :: p <= i < end ==> IsTokenByte(s[i]) && i in Hidden(s)
  {
    var m :| m in KEY_PREFIXES && InKey(s, m, x, 0);
    p :| 0 <= p && KeyAt(s, m, p) && p <= x < TokenEnd(s, p);
    end := TokenEnd(s, p);
    forall i | p <= i < end
      ensures i in Hidden(s)
    {
      assert InKey(s, m, i, 0);
      assert InSomeKey(s, KEY_PREFIXES, i);
    }
  }

  lemma BlankEndsScheme(s: string, marker: string, p: nat)
    requires marker in SCHEMES && OccursAt(Lower(s), marker, p)
    ensures s[p + |marker| - 1] == ' '
  {
    assert Lower(s)[p + |marker| - 1] == Lower(s)[p..p + |marker|][|marker| - 1];
  }

  lemma SchemeRangeStretch(s: string, lower: string, marker: string, p: nat, x: nat)
    requires |s| == |lower| && p + |marker| <= |s| && Covers(SchemeRange(s, lower, marker, p), x)
    ensures p + |marker| <= x < |s| && forall i :: p + |marker| <= i <= x ==> IsTokenByte(s[i])
  {
  }

  /** A byte of a scheme token is in a stretch of token bytes behind a blank. */
  lemma SchemeStretch(s: string, x: nat) returns (b: nat)
    requires InSomeScheme(s, Lower(s), x)
    ensures b < x < |s| && s[b] == ' ' && forall i :: b < i <= x ==> IsTokenByte(s[i])
  {
    var m :| m in SCHEMES && IsSchemeToken(s, Lower(s), m, x, 0);
    b := SchemeStretchOf(s, m, x);
  }

  lemma SchemeStretchOf(s: string, marker: string, x: nat) returns (b: nat)
    requires marker in SCHEMES && IsSchemeToken(s, Lower(s), marker, x, 0)
    ensures b < x < |s| && s[b] == ' ' && forall i :: b < i <= x ==> IsTokenByte(s[i])
  {
    var p := SchemeTokenAt(s, Lower(s), marker, x);
    BlankEndsScheme(s, marker, p);
    SchemeRangeStretch(s, Lower(s), marker, p, x);
    b := p + |marker| - 1;
  }

  lemma SchemeTokenAt(s: string, lower: string, marker: string, x: nat) returns (p: nat)
    requires |s| == |lower| && IsSchemeToken(s, lower, marker, x, 0)
    ensures OccursAt(lower, marker, p) && Covers(SchemeRange(s, lower, marker, p), x)
  {
    p :| 0 <= p && IsVisited(s, lower, marker, p) && Covers(SchemeRange(s, lower, marker, p), x);
  }

  lemma LineValue(s: string, lo: nat, next: nat, x: nat)
    requires lo <= next <= |s| && Covers(LineRange(s, lo, next), x)
    ensures Covers(LineRange(s, lo, next), x + 1) || x + 1 == ContentEnd(s, lo, next)
  {
    var r :| r in LineRange(s, lo, next) && r.start <= x < r.end;
    assert r.end == ContentEnd(s, lo, next);
  }

  lemma AssignedIsHidden(s: string, lo: nat, x: nat)
    requires IsLineStart(s, lo) && Covers(LineRange(s, lo, LineEnd(s, lo)), x) && x < |s|
    ensures x in Hidden(s)
  {
    assert IsAssigned(s, x, 0);
  }

  /** A line break stands at `e`, and a line feed unless more breaks follow. */
  predicate EndsLine(s: string, e: nat) {
    e < |s| && IsLineBreak(s[e]) && (e + 1 < |s| && !IsLineBreak(s[e + 1]) ==> s[e] == '\n')
  }

  lemma ContentEndsAtBreak(s: string, lo: nat)
    requires lo < |s| && ContentEnd(s, lo, LineEnd(s, lo)) < |s|
    ensures EndsLine(s, ContentEnd(s, lo, LineEnd(s, lo)))
  {
    var next := LineEnd(s, lo);
    if next < |s| { LineKeepsItsBreak(s, lo, next); }
  }

  lemma ValueOnLine(s: string, lo: nat, x: nat)
    requires lo < |s| && Covers(LineRange(s, lo, LineEnd(s, lo)), x) && x + 1 < |s|
    ensures Covers(LineRange(s, lo, LineEnd(s, lo)), x + 1) || EndsLine(s, x + 1)
  {
    LineValue(s, lo, LineEnd(s, lo), x);
    if x + 1 == ContentEnd(s, lo, LineEnd(s, lo)) { ContentEndsAtBreak(s, lo); }
  }

  /** A value goes on to the break of its line. */
  lemma ValueEnds(s: string, x: nat)
    requires IsAssigned(s, x, 0) && x + 1 < |s|
    ensures x + 1 in Hidden(s) || EndsLine(s, x + 1)
  {
    var lo: nat :| 0 <= lo && IsLineStart(s, lo) && Covers(LineRange(s, lo, LineEnd(s, lo)), x);
    ValueOnLine(s, lo, x);
    if Covers(LineRange(s, lo, LineEnd(s, lo)), x + 1) { AssignedIsHidden(s, lo, x + 1); }
  }

  ghost function Assigned(s: string): set<nat> {
    set x | 0 <= x < |s| && IsAssigned(s, x, 0)
  }

  lemma HiddenIs(s: string, x: nat)
    requires x in Hidden(s)
    ensures IsAssigned(s, x, 0) || InSomeScheme(s, Lower(s), x) || InSomeKey(s, KEY_PREFIXES, x)
  {
  }

  /** Up to two bytes behind a byte that is no token byte, with no blank between. */
  predicate Near(s: string, k: nat, x: nat) {
    k <= x <= k + 2 && x + 1 < |s| && !IsTokenByte(s[k]) && forall i :: k <= i < x ==> s[i] != ' '
  }

  /** Only a value can end there. */
  lemma OnlyValueEnds(s: string, k: nat, x: nat)
    requires Near(s, k, x) && x in Hidden(s) && x + 1 !in Hidden(s)
    ensures x in Assigned(s) && EndsLine(s, x + 1)
  {
    HiddenIs(s, x);
    if IsAssigned(s, x, 0) {
      ValueEnds(s, x);
    } else if InSomeKey(s, KEY_PREFIXES, x) {
      var p, end := KeyStretch(s, x);
      assert false;
    } else {
      var b := SchemeStretch(s, x);
      assert false;
    }
  }

  /** All that is needed of the hidden and the assigned bytes. */
  ghost predicate Cut(s: string, hidden: set<nat>, values: set<nat>) {
    && StopsTokens(s, hidden) && values <= hidden
    && forall k: nat, x: nat :: Near(s, k, x) && x in hidden && x + 1 !in hidden ==> x in values && EndsLine(s, x + 1)
  }

  lemma HiddenIsCut(s: string)
    ensures HidesKeys(s, Hidden(s)) && Cut(s, Hidden(s), Assigned(s))
  {
    HiddenHidesKeys(s);
    forall k: nat, x: nat | Near(s, k, x) && x in Hidden(s) && x + 1 !in Hidden(s)
      ensures x in Assigned(s) && EndsLine(s, x + 1)
    {
      OnlyValueEnds(s, k, x);
    }
  }

  // ----- The keys that are left

  /**
   A shown run that is a key of the redacted text: the percent escape in front of it is covered
   up by `\u` at the end of the line before, whose `u` is assigned to a sensitive key.
   */
  ghost predicate IsUncovered(s: string, hidden: set<nat>, values: set<nat>, marker: string, p: nat) {
    && 6 <= p && p + 16 <= |s|
    && s[p - 6..p - 2] == "\\u\n%" && NamesSeparator(s[p - 2..p])
    && OccursAt(Lower(s), marker, p)
    && (forall i :: p <= i < p + 16 ==> IsTokenByte(s[i]) && i !in hidden)
    && p - 5 in values
  }

  lemma HeadBytes(s: string, p: nat)
    requires p <= |s| && UnicodeHead(s[..p])
    ensures p >= 6 && s[p - 6] == '\\' && s[p - 5] == 'u' && s[p - 3] == '%' && NamesSeparator(s[p - 2..p])
  {
    assert s[..p][p - 2..] == s[p - 2..p];
  }

  /** The line break between the two escapes. */
  lemma BreakBetween(s: string, hidden: set<nat>, values: set<nat>, p: nat, e: nat)
    requires Cut(s, hidden, values) && 6 <= p <= |s| && s[p - 6] == '\\' && s[p - 5] == 'u' && s[p - 3] == '%'
    requires 3 <= p - e < 6 && e - 1 in hidden && e !in hidden
    ensures s[p - 4] == '\n' && p - 5 in values
  {
    assert e >= p - 4;
    assert Near(s, p - 6, e - 1);
  }

  lemma BytesAreUncovered(s: string, hidden: set<nat>, values: set<nat>, marker: string, p: nat)
    requires Cut(s, hidden, values) && KeptLong(s, hidden, p) && OccursAt(Lower(s), marker, p) && LongRun(s, p)
    requires UnicodeHead(s[..p]) && 3 <= p - KeptFrom(hidden, p) < 6
    ensures IsUncovered(s, hidden, values, marker, p)
  {
    HeadBytes(s, p);
    BreakBetween(s, hidden, values, p, KeptFrom(hidden, p));
    assert s[p - 6..p - 2] == [s[p - 6], s[p - 5], s[p - 4], s[p - 3]];
  }

  lemma SurvivorIsUncovered(s: string, hidden: set<nat>, values: set<nat>, marker: string, p: nat)
    requires HidesKeys(s, hidden) && Cut(s, hidden, values) && marker in KEY_PREFIXES && KeptLong(s, hidden, p)
    requires KeyAt(Paint(s, hidden, 0), marker, |Before(s, hidden, p)|)
    ensures IsUncovered(s, hidden, values, marker, p)
  {
    KeptKey(s, hidden, marker, p);
    NewKeyIsUncovered(s, hidden, marker, p);
    BytesAreUncovered(s, hidden, values, marker, p);
  }

  /** A shown token byte is preceded by a shown byte. */
  lemma StillShown(s: string, hidden: set<nat>, p: nat)
    requires StopsTokens(s, hidden) && 0 < p < |s| && p !in hidden && IsTokenByte(s[p])
    ensures p - 1 !in hidden
  {
  }

  lemma DigitsAreTokens(s: string, p: nat)
    requires 2 <= p <= |s| && NamesSeparator(s[p - 2..p])
    ensures IsTokenByte(s[p - 2]) && IsTokenByte(s[p - 1])
  {
    TwoDigits(s[p - 2..p]);
    assert s[p - 2..p][0] == s[p - 2] && s[p - 2..p][1] == s[p - 1];
  }

  /** From the line break on the bytes are shown, the one in front of it is hidden. */
  lemma UncoveredIsKept(s: string, hidden: set<nat>, values: set<nat>, p: nat)
    requires Cut(s, hidden, values) && 6 <= p < |s| && s[p - 6..p - 2] == "\\u\n%" && NamesSeparator(s[p - 2..p])
    requires IsTokenByte(s[p]) && p !in hidden && p - 5 in values
    ensures s[p - 4] == '\n' && s[p - 3] == '%' && p - 5 in hidden
    ensures forall i :: p - 4 <= i < p ==> i !in hidden
  {
    assert s[p - 4] == s[p - 6..p - 2][2] && s[p - 3] == s[p - 6..p - 2][3];
    DigitsAreTokens(s, p);
    StillShown(s, hidden, p);
    StillShown(s, hidden, p - 1);
    StillShown(s, hidden, p - 2);
    assert Near(s, p - 4, p - 4);
  }

  lemma PercentEndsText(t: string, digits: string)
    requires |digits| == 2 && NamesSeparator(digits)
    requires |t| >= 5 && t[|t| - 5] == ']' && t[|t| - 4] == '\n' && t[|t| - 3] == '%' && t[|t| - 2..] == digits
    ensures EndsWithSeparatorEscape(t)
  {
    TwoDigits(digits);
    assert t[|t| - 2] == digits[0];
    var a := t[..|t| - 2];
    assert a[|a| - 1..] == "%";
  }

  lemma UncoveredStartsWord(s: string, hidden: set<nat>, p: nat)
    requires 5 <= p <= |s| && p - 5 in hidden && forall i :: p - 4 <= i < p ==> i !in hidden
    requires s[p - 4] == '\n' && s[p - 3] == '%' && NamesSeparator(s[p - 2..p])
    ensures StartsOutputWord(s, hidden, p)
  {
    MarkerEnds(s, hidden, p - 4);
    KeptBefore(s, hidden, p - 4, p);
    var a, w, t := Before(s, hidden, p - 4), s[p - 4..p], Before(s, hidden, p);
    assert t == a + w && w[0] == '\n' && w[1] == '%' && w[2..] == s[p - 2..p];
    assert t[|t| - 2..] == w[2..];
    PercentEndsText(t, s[p - 2..p]);
  }

  lemma UncoveredSurvives(s: string, hidden: set<nat>, values: set<nat>, marker: string, p: nat)
    requires Cut(s, hidden, values) && marker in KEY_PREFIXES && IsUncovered(s, hidden, values, marker, p)
    ensures KeyAt(Paint(s, hidden, 0), marker, |Before(s, hidden, p)|)
  {
    UncoveredIsKept(s, hidden, values, p);
    UncoveredStartsWord(s, hidden, p);
    KeptKey(s, hidden, marker, p);
  }

  lemma SurvivorAt(s: string, hidden: set<nat>, values: set<nat>, marker: string, q: nat) returns (p: nat)
    requires HidesKeys(s, hidden) && Cut(s, hidden, values) && marker in KEY_PREFIXES
    requires KeyAt(Paint(s, hidden, 0), marker, q)
    ensures IsUncovered(s, hidden, values, marker, p) && q == |Before(s, hidden, p)|
  {
    LongRunIs(Paint(s, hidden, 0), q);
    p := LocateKey(s, hidden, q);
    SurvivorIsUncovered(s, hidden, values, marker, p);
  }

  lemma PaintedKeysExactly(s: string, hidden: set<nat>, values: set<nat>, marker: string, q: nat)
    requires HidesKeys(s, hidden) && Cut(s, hidden, values) && marker in KEY_PREFIXES
    ensures KeyAt(Paint(s, hidden, 0), marker, q) <==>
              exists p: nat :: IsUncovered(s, hidden, values, marker, p) && q == |Before(s, hidden, p)|
  {
    if KeyAt(Paint(s, hidden, 0), marker, q) {
      var p := SurvivorAt(s, hidden, values, marker, q);
    }
    if p: nat :| IsUncovered(s, hidden, values, marker, p) && q == |Before(s, hidden, p)| {
      UncoveredSurvives(s, hidden, values, marker, p);
    }
  }

  lemma PemMarkerSafe(marker: string, q: nat)
    ensures !KeyAt(PEM_MARKER, marker, q)
  {
    if q <= |PEM_MARKER| {
      assert PEM_MARKER[9] == ' ';
      LongRunIs(PEM_MARKER, q);
    }
  }

  ghost predicate UncoveredKey(s: string, marker: string, p: nat) {
    IsUncovered(s, Hidden(s), Assigned(s), marker, p)
  }

  /**
   Exactly which keys are left, and where: those behind a percent escape at the start of a line,
   when the line before assigns a value that ends in `\u` to a sensitive key.
   */
  lemma SurvivingKeysExactly(s: string, marker: string, q: nat)
    requires marker in KEY_PREFIXES
    ensures KeyAt(Redacted(s), marker, q) <==>
              && !HoldsPrivateKey(s)
              && exists p: nat :: UncoveredKey(s, marker, p) && q == |Before(s, Hidden(s), p)|
  {
    if HoldsPrivateKey(s) {
      PemMarkerSafe(marker, q);
    } else {
      HiddenIsCut(s);
      PaintedKeysExactly(s, Hidden(s), Assigned(s), marker, q);
    }
  }

  // ----- What follows

  /** A key prefix that opens a long run at the start of the text or after a non-alphanumeric byte. */
  predicate PlainKeyAt(s: string, marker: string, q: nat) {
    && q <= |s|
    && OccursAt(Lower(s), marker, q)
    && (q == 0 || !IsAlnum(s[q - 1]))
    && LongRun(s, q)
  }

  lemma UncoveredBehindDigit(s: string, hidden: set<nat>, values: set<nat>, marker: string, p: nat)
    requires Cut(s, hidden, values) && IsUncovered(s, hidden, values, marker, p)
    ensures var t, q := Paint(s, hidden, 0), |Before(s, hidden, p)|; 0 < q <= |t| && IsAlnum(t[q - 1])
  {
    TwoDigits(s[p - 2..p]);
    UncoveredIsKept(s, hidden, values, p);
    KeptBefore(s, hidden, p - 1, p);
    PaintSplit(s, hidden, p);
    assert s[p - 1..p] == [s[p - 2..p][1]];
  }

  lemma PaintedKeyBehindDigit(s: string, hidden: set<nat>, values: set<nat>, marker: string, q: nat)
    requires HidesKeys(s, hidden) && Cut(s, hidden, values) && marker in KEY_PREFIXES
    requires KeyAt(Paint(s, hidden, 0), marker, q)
    ensures 0 < q <= |Paint(s, hidden, 0)| && IsAlnum(Paint(s, hidden, 0)[q - 1])
  {
    var p := SurvivorAt(s, hidden, values, marker, q);
    UncoveredBehindDigit(s, hidden, values, marker, p);
  }

  lemma PlainKeyIsKey(s: string, marker: string, q: nat)
    requires PlainKeyAt(s, marker, q)
    ensures KeyAt(s, marker, q) && (q == 0 || !IsAlnum(s[q - 1]))
  {
    LongRunIs(s, q);
  }

  /** Whatever the input, the output holds no key at its start or behind a byte that is not alphanumeric. */
  lemma OutputHoldsNoKey(s: string, marker: string, q: nat)
    requires marker in KEY_PREFIXES
    ensures !PlainKeyAt(Redacted(s), marker, q)
  {
    if PlainKeyAt(Redacted(s), marker, q) {
      PlainKeyIsKey(Redacted(s), marker, q);
      if HoldsPrivateKey(s) {
        PemMarkerSafe(marker, q);
      } else {
        HiddenIsCut(s);
        PaintedKeyBehindDigit(s, Hidden(s), Assigned(s), marker, q);
      }
      assert false;
    }
  }
}
