/**
 Assignments to a sensitive key in process output (crates/audit/src/lib.rs,
 `sensitive_key` and the line loop of `redact_text`).
 */
module AssignmentScan {
  import opened KeyScan

  // ----- Sensitive keys

  function Normalized(key: string): string {
    if key == "" then ""
    else (if IsAlnum(key[0]) then [LowerByte(key[0])] else "") + Normalized(key[1..])
  }

  const EXACT_CREDENTIAL_KEYS: seq<string> :=
    ["authorization", "bearertoken", "credential", "credentials", "csrftoken", "idtoken", "password",
     "passphrase", "privatekey", "proxyauthorization", "secret", "token"]

  const CREDENTIAL_SUFFIXES: seq<string> :=
    ["accesstoken", "apikey", "authtoken", "bearertoken", "clientsecret", "credential", "credentials",
     "csrftoken", "password", "passphrase", "privatekey", "refreshtoken", "secret", "signingkey"]

  predicate SensitiveKey(key: string) {
    var normalized := Normalized(key);
    || normalized in EXACT_CREDENTIAL_KEYS
    || "authorization" <= normalized
    || (exists suffix :: suffix in CREDENTIAL_SUFFIXES && EndsWith(normalized, suffix))
  }

  // ----- Whitespace, as UTF-8 bytes

  predicate AsciiSpace(c: char) { c == ' ' || 9 <= c as int <= 13 }

  predicate WideSpace(a: char, b: char) {
    a as int == 0xC2 && (b as int == 0x85 || b as int == 0xA0)
  }

  predicate WiderSpace(a: char, b: char, c: char) {
    || (a as int == 0xE1 && b as int == 0x9A && c as int == 0x80)
    || (a as int == 0xE2 && b as int == 0x80 &&
        (0x80 <= c as int <= 0x8A || c as int == 0xA8 || c as int == 0xA9 || c as int == 0xAF))
    || (a as int == 0xE2 && b as int == 0x81 && c as int == 0x9F)
    || (a as int == 0xE3 && b as int == 0x80 && c as int == 0x80)
  }

  function TrimStart(s: string, lo: nat, hi: nat): (i: nat)
    requires lo <= hi <= |s|
    ensures lo <= i <= hi
    decreases hi - lo
  {
    if lo + 1 <= hi && AsciiSpace(s[lo]) then TrimStart(s, lo + 1, hi)
    else if lo + 2 <= hi && WideSpace(s[lo], s[lo + 1]) then TrimStart(s, lo + 2, hi)
    else if lo + 3 <= hi && WiderSpace(s[lo], s[lo + 1], s[lo + 2]) then TrimStart(s, lo + 3, hi)
    else lo
  }

  function TrimEnd(s: string, lo: nat, hi: nat): (i: nat)
    requires lo <= hi <= |s|
    ensures lo <= i <= hi
    decreases hi - lo
  {
    if lo + 1 <= hi && AsciiSpace(s[hi - 1]) then TrimEnd(s, lo, hi - 1)
    else if lo + 2 <= hi && WideSpace(s[hi - 2], s[hi - 1]) then TrimEnd(s, lo, hi - 2)
    else if lo + 3 <= hi && WiderSpace(s[hi - 3], s[hi - 2], s[hi - 1]) then TrimEnd(s, lo, hi - 3)
    else hi
  }

  // ----- Assignments, one line at a time

  function LineEnd(s: string, from: nat): (end: nat)
    requires from <= |s|
    ensures from <= end <= |s| && (from < |s| ==> from < end)
    ensures end < |s| ==> s[end - 1] == '\n'
    decreases |s| - from
  {
    if from == |s| then from else if s[from] == '\n' then from + 1 else LineEnd(s, from + 1)
  }

  predicate IsLineBreak(c: char) { c == '\r' || c == '\n' }

  function ContentEnd(s: string, lo: nat, hi: nat): (end: nat)
    requires lo <= hi <= |s|
    ensures lo <= end <= hi
    ensures forall i :: end <= i < hi ==> IsLineBreak(s[i])
    decreases hi - lo
  {
    if lo < hi && IsLineBreak(s[hi - 1]) then ContentEnd(s, lo, hi - 1) else hi
  }

  const EXPORT := "export "

  function AssignmentStart(s: string, lo: nat, hi: nat): (i: nat)
    requires lo <= hi <= |s|
    ensures lo <= i <= hi
  {
    var trimmed := TrimStart(s, lo, hi);
    if EXPORT <= s[trimmed..hi] then trimmed + |EXPORT| else trimmed
  }

  function FindSeparator(s: string, lo: nat, hi: nat): (i: nat)
    requires lo <= hi <= |s|
    ensures lo <= i <= hi
    ensures i < hi ==> s[i] == '=' || s[i] == ':'
    decreases hi - lo
  {
    if lo == hi || s[lo] == '=' || s[lo] == ':' then lo else FindSeparator(s, lo + 1, hi)
  }

  predicate CredentialName(key: string) {
    && 0 < |key| <= 128
    && (forall c :: c in key ==> IsAlnum(c) || c == '_' || c == '-')
    && SensitiveKey(key)
  }

  /** The value assigned on the line `lo..next`, when its key is sensitive. */
  function LineRange(s: string, lo: nat, next: nat): seq<Range>
    requires lo <= next <= |s|
  {
    var hi := ContentEnd(s, lo, next);
    var start := AssignmentStart(s, lo, hi);
    var separator := FindSeparator(s, start, hi);
    if separator == hi then []
    else
      var from := TrimStart(s, start, separator);
      var key := s[from..TrimEnd(s, from, separator)];
      if CredentialName(key) && separator + 1 < hi then [Range(separator + 1, hi)] else []
  }

  function AssignmentRanges(s: string, lineStart: nat): seq<Range>
    requires lineStart <= |s|
    decreases |s| - lineStart
  {
    if lineStart == |s| then []
    else
      var next := LineEnd(s, lineStart);
      LineRange(s, lineStart, next) + AssignmentRanges(s, next)
  }

  method ScanAssignments(s: string) returns (ranges: seq<Range>)
    ensures ranges == AssignmentRanges(s, 0)
  {
    ranges := [];
    var lineStart := 0;
    while lineStart < |s|
      invariant lineStart <= |s|
      invariant ranges + AssignmentRanges(s, lineStart) == AssignmentRanges(s, 0)
    {
      var next := LineEnd(s, lineStart);
      var found := LineRange(s, lineStart, next);
      AppendRanges(ranges, found, AssignmentRanges(s, next));
      ranges := ranges + found;
      lineStart := next;
    }
    assert ranges + [] == ranges;
  }

  // ----- What the line loop covers

  predicate IsLineStart(s: string, lo: nat) {
    lo < |s| && (lo == 0 || s[lo - 1] == '\n')
  }

  /** The byte is part of a value assigned to a sensitive key, on whatever line. */
  ghost predicate IsAssigned(s: string, x: int, from: nat) {
    exists lo: nat :: from <= lo && IsLineStart(s, lo) && Covers(LineRange(s, lo, LineEnd(s, lo)), x)
  }

  /** A line holds no other line start. */
  lemma {:induction false} OneStartPerLine(s: string, from: nat, lo: nat)
    requires from <= |s| && from < lo < LineEnd(s, from)
    ensures !IsLineStart(s, lo)
    decreases lo - from
  {
    if from + 1 < lo { OneStartPerLine(s, from + 1, lo); }
  }

  lemma {:induction false} AssignedFrom(s: string, from: nat, x: int)
    requires from <= |s| && (from < |s| ==> IsLineStart(s, from))
    ensures Covers(AssignmentRanges(s, from), x) <==> IsAssigned(s, x, from)
    decreases |s| - from
  {
    if from < |s| {
      var next := LineEnd(s, from);
      AssignedFrom(s, next, x);
      CoversConcat(LineRange(s, from, next), AssignmentRanges(s, next), x);
      forall lo: nat | from <= lo && IsLineStart(s, lo)
        ensures lo == from || next <= lo
      {
        if from < lo < next { OneStartPerLine(s, from, lo); }
      }
    }
  }

  /** The line loop covers exactly the assigned bytes. */
  lemma AssignmentsAreNaive(s: string, x: int)
    ensures Covers(AssignmentRanges(s, 0), x) <==> IsAssigned(s, x, 0)
  {
    AssignedFrom(s, 0, x);
  }

  // ----- Its ranges are proper

  lemma LineRangeProper(s: string, lo: nat)
    requires lo < |s|
    ensures AllProper(s, LineRange(s, lo, LineEnd(s, lo)))
  {
    var next := LineEnd(s, lo);
    if next < |s| { LineKeepsItsBreak(s, lo, next); }
  }

  /** A line that ends before the text does ends in a break, which is not content. */
  lemma LineKeepsItsBreak(s: string, lo: nat, next: nat)
    requires lo < next <= |s| && s[next - 1] == '\n'
    ensures ContentEnd(s, lo, next) < next
  {
  }

  lemma {:induction false} AssignmentRangesProper(s: string, lineStart: nat)
    requires lineStart <= |s|
    ensures AllProper(s, AssignmentRanges(s, lineStart))
    decreases |s| - lineStart
  {
    if lineStart < |s| {
      LineRangeProper(s, lineStart);
      AssignmentRangesProper(s, LineEnd(s, lineStart));
    }
  }
}
