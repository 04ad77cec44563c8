/**
 Texts whose redaction holds a secret: a key that hiding a value uncovers, as
 `KeySurvivors.SurvivingKeysExactly` allows, and a scheme token that is passed over
 (crates/audit/src/lib.rs, `redact_text`).
 */
module UncoveredText {
  import opened Wrappers
  import opened KeyScan
  import opened RangeMerge
  import opened AssignmentScan
  import opened SchemeScan
  import opened Redaction
  import opened KeySurvivors

  lemma {:induction false} LineEndIs(s: string, from: nat, e: nat)
    requires from <= e < |s| && s[e] == '\n' && forall i :: from <= i < e ==> s[i] != '\n'
    ensures LineEnd(s, from) == e + 1
    decreases e - from
  {
    if from < e { LineEndIs(s, from + 1, e); }
  }

  lemma {:induction false} SeparatorIs(s: string, lo: nat, hi: nat, e: nat)
    requires lo <= e < hi <= |s| && (s[e] == '=' || s[e] == ':')
    requires forall i :: lo <= i < e ==> s[i] != '=' && s[i] != ':'
    ensures FindSeparator(s, lo, hi) == e
    decreases e - lo
  {
    if lo < e { SeparatorIs(s, lo + 1, hi, e); }
  }

  lemma TokenIsSensitive()
    ensures CredentialName("token")
  {
    assert Normalized("n") == "n";
    assert "en"[1..] == "n" && Normalized("en") == "en";
    assert "ken"[1..] == "en" && Normalized("ken") == "ken";
    assert "oken"[1..] == "ken" && Normalized("oken") == "oken";
    assert "token"[1..] == "oken" && Normalized("token") == "token";
    assert EXACT_CREDENTIAL_KEYS[11] == "token";
  }

  predicate IsDecimal(c: char) { '0' <= c <= '9' }

  /** The bytes of the text, one by one. */
  predicate Uncovering(s: string) {
    && |s| == 28
    && s[0] == 't' && s[1] == 'o' && s[2] == 'k' && s[3] == 'e' && s[4] == 'n' && s[5] == '='
    && s[6] == '\\' && s[7] == 'u' && s[8] == '\n' && s[9] == '%' && s[10] == '2' && s[11] == '0'
    && s[12] == 'a' && s[13] == 'k' && s[14] == 'i' && s[15] == 'a'
    && forall i :: 16 <= i < 28 ==> IsDecimal(s[i])
  }

  /** The value of the first line is assigned. */
  lemma UncoveringAssigns(s: string)
    requires Uncovering(s)
    ensures Covers(LineRange(s, 0, LineEnd(s, 0)), 7)
  {
    LineEndIs(s, 0, 8);
    assert ContentEnd(s, 0, 8) == 8;
    assert ContentEnd(s, 0, 9) == 8;
    assert TrimStart(s, 0, 8) == 0 && s[0..8][0] == 't';
    assert AssignmentStart(s, 0, 8) == 0;
    SeparatorIs(s, 0, 8, 5);
    assert TrimStart(s, 0, 5) == 0 && TrimEnd(s, 0, 5) == 5;
    assert s[0..5] == "token";
    TokenIsSensitive();
    assert Range(6, 8) in LineRange(s, 0, 9);
  }

  lemma NoSchemeWithoutBlank(s: string, x: nat)
    requires forall i :: 0 <= i < |s| ==> s[i] != ' '
    ensures !InSomeScheme(s, Lower(s), x)
  {
    if InSomeScheme(s, Lower(s), x) {
      var b := SchemeStretch(s, x);
      assert false;
    }
  }

  /** The arm for `\u` reads the line break and the percent sign and finds no number. */
  lemma CoveredStartsNoWord(s: string)
    requires |s| >= 12 && s[6] == '\\' && s[7] == 'u' && s[8] == '\n' && s[9] == '%' && IsAlnum(s[11]) && s[10] != '\\'
    ensures !StartsWord(s, 12)
  {
    var before := s[..12];
    var digits := before[8..];
    assert digits[1] == s[9];
    if HexValue(digits).Some? { FourDigits(digits); }
  }

  lemma PrefixStartsWithLetter(marker: string)
    requires marker in KEY_PREFIXES
    ensures marker != "" && 'a' <= marker[0] <= 'z'
  {
  }

  lemma TooShortForOtherKeys(s: string, marker: string, p: nat)
    requires |s| == 28 && s[9] == '%' && s[10] == '2' && s[11] == '0' && !StartsWord(s, 12) && marker in KEY_PREFIXES
    ensures !KeyAt(s, marker, p)
  {
    if KeyAt(s, marker, p) {
      LongRunIs(s, p);
      PrefixStartsWithLetter(marker);
      assert false;
    }
  }

  lemma {:induction false} NoSeparator(s: string, lo: nat, hi: nat)
    requires lo <= hi <= |s| && forall i :: lo <= i < hi ==> s[i] != '=' && s[i] != ':'
    ensures FindSeparator(s, lo, hi) == hi
    decreases hi - lo
  {
    if lo < hi { NoSeparator(s, lo + 1, hi); }
  }

  lemma NothingAssigned(s: string, lo: nat, next: nat)
    requires lo <= next <= |s| && forall i :: lo <= i < next ==> s[i] != '=' && s[i] != ':'
    ensures LineRange(s, lo, next) == []
  {
    var hi := ContentEnd(s, lo, next);
    NoSeparator(s, AssignmentStart(s, lo, hi), hi);
  }

  lemma SecondLineShown(s: string, e: nat, x: nat)
    requires e < x < |s| && s[e] == '\n' && forall i :: 0 <= i < |s| && i != e ==> s[i] != '\n'
    requires forall i :: e < i < |s| ==> s[i] != '=' && s[i] != ':'
    ensures !IsAssigned(s, x, 0)
  {
    if IsAssigned(s, x, 0) {
      var lo: nat :| 0 <= lo && IsLineStart(s, lo) && Covers(LineRange(s, lo, LineEnd(s, lo)), x);
      if lo == 0 {
        LineEndIs(s, 0, e);
      } else {
        NothingAssigned(s, lo, LineEnd(s, lo));
      }
      assert false;
    }
  }

  lemma NotHidden(s: string, x: nat)
    requires !IsAssigned(s, x, 0) && !InSomeScheme(s, Lower(s), x)
    requires forall marker, p :: marker in KEY_PREFIXES ==> !KeyAt(s, marker, p)
    ensures x !in Hidden(s)
  {
  }

  lemma UncoveringShown(s: string, x: nat)
    requires Uncovering(s) && 8 < x < 28
    ensures x !in Hidden(s)
  {
    SecondLineShown(s, 8, x);
    NoSchemeWithoutBlank(s, x);
    CoveredStartsNoWord(s);
    forall marker, p | marker in KEY_PREFIXES
      ensures !KeyAt(s, marker, p)
    {
      TooShortForOtherKeys(s, marker, p);
    }
    NotHidden(s, x);
  }

  lemma UncoveringValue(s: string)
    requires Uncovering(s)
    ensures 7 in Assigned(s)
  {
    UncoveringAssigns(s);
    assert IsLineStart(s, 0);
    assert IsAssigned(s, 7, 0);
  }

  lemma TwelfthIsUncovered(s: string, hidden: set<nat>, values: set<nat>)
    requires Uncovering(s) && (forall i :: 12 <= i < 28 ==> i !in hidden) && 7 in values
    ensures IsUncovered(s, hidden, values, "akia", 12)
  {
    var lower := Lower(s);
    assert s[6..10] == [s[6], s[7], s[8], s[9]] && s[10..12] == "20";
    assert lower[12..16] == [lower[12], lower[13], lower[14], lower[15]];
    assert HexValue("2") == Some(2) && HexValue("20") == Some(32);
  }

  lemma UncoveringIsUncovered(s: string)
    requires Uncovering(s)
    ensures UncoveredKey(s, "akia", 12)
  {
    UncoveringValue(s);
    forall i | 12 <= i < 28
      ensures i !in Hidden(s)
    {
      UncoveringShown(s, i);
    }
    TwelfthIsUncovered(s, Hidden(s), Assigned(s));
  }

  lemma UncoveredIsLeft(s: string, marker: string, p: nat)
    requires marker in KEY_PREFIXES && UncoveredKey(s, marker, p) && !HoldsPrivateKey(s)
    ensures exists q :: KeyAt(Redacted(s), marker, q)
  {
    SurvivingKeysExactly(s, marker, |Before(s, Hidden(s), p)|);
  }

  lemma OccursFirst(s: string, marker: string, i: nat)
    requires OccursAt(s, marker, i) && marker != ""
    ensures marker[0] in s
  {
    assert s[i] == s[i..i + |marker|][0];
  }

  lemma NoPrivateKeyWithoutDash(s: string)
    requires '-' !in s
    ensures !HoldsPrivateKey(s)
  {
    var found := Find(s, "-----BEGIN", 0);
    if found.Some? { OccursFirst(s, "-----BEGIN", found.value); }
  }

  /** A value, a line break and a key behind a percent escape. */
  function UncoveringText(digits: string): string { "token=" + "\\u\n%20" + "akia" + digits }

  lemma TextIsUncovering(digits: string)
    requires |digits| == 12 && forall c :: c in digits ==> IsDecimal(c)
    ensures Uncovering(UncoveringText(digits))
  {
    var s := UncoveringText(digits);
    assert forall i :: 16 <= i < 28 ==> s[i] == digits[i - 16];
  }

  /** Hiding the value of the first line turns the second into a key, which the output then holds. */
  lemma KeyIsLeft(digits: string)
    requires |digits| == 12 && forall c :: c in digits ==> IsDecimal(c)
    ensures exists q :: KeyAt(Redacted(UncoveringText(digits)), "akia", q)
  {
    var s := UncoveringText(digits);
    TextIsUncovering(digits);
    assert '-' !in s;
    NoPrivateKeyWithoutDash(s);
    UncoveringIsUncovered(s);
    assert KEY_PREFIXES[13] == "akia";
    UncoveredIsLeft(s, "akia", 12);
  }

  // ----- A scheme token that is passed over

  /** A scheme name, and the header with its token glued to it. */
  function GluedText(marker: string, digits: string): string { marker + HEADER_NAME + marker + digits }

  /** Two bytes in a row that start no key prefix. */
  predicate NoPrefixPair(a: char, b: char) {
    && a !in ['g', 'x'] && !(a == 's' && b == 'k') && !(a == 'h' && b == 'f') && !(a == 'a' && (b == 'k' || b == 'i'))
  }

  lemma PrefixPair(marker: string)
    requires marker in KEY_PREFIXES
    ensures |marker| >= 2 && !NoPrefixPair(marker[0], marker[1])
  {
  }

  lemma NoKeyWithoutPair(s: string, marker: string, p: nat)
    requires marker in KEY_PREFIXES && forall i :: 0 <= i < |s| - 1 ==> NoPrefixPair(LowerByte(s[i]), LowerByte(s[i + 1]))
    ensures !KeyAt(s, marker, p)
  {
    if KeyAt(s, marker, p) {
      PrefixPair(marker);
      FirstTwo(Lower(s), marker, p);
      assert false;
    }
  }

  lemma FirstTwo(lower: string, marker: string, p: nat)
    requires OccursAt(lower, marker, p) && |marker| >= 2
    ensures lower[p] == marker[0] && lower[p + 1] == marker[1]
  {
    assert lower[p..p + |marker|][0] == lower[p] && lower[p..p + |marker|][1] == lower[p + 1];
  }

  lemma NoAssignmentWithoutSign(s: string, x: nat)
    requires '=' !in s && ':' !in s
    ensures !IsAssigned(s, x, 0)
  {
    forall lo: nat | IsLineStart(s, lo)
      ensures LineRange(s, lo, LineEnd(s, lo)) == []
    {
      NothingAssigned(s, lo, LineEnd(s, lo));
    }
  }

  predicate Digits(digits: string) { forall c :: c in digits ==> IsDecimal(c) }

  /** What the text in front of the digits is made of. */
  predicate Harmless(s: string, i: nat)
    requires i < |s|
  {
    && LowerByte(s[i]) == s[i] && s[i] !in ['-', '=', ':']
    && (i + 1 < |s| ==> NoPrefixPair(s[i], s[i + 1]))
  }

  const BEARER_HEAD := "bearer authorizationbearer "
  const BASIC_HEAD := "basic authorizationbasic "

  lemma BearerIsHarmless(i: nat)
    requires i < |BEARER_HEAD|
    ensures Harmless(BEARER_HEAD, i) && (BEARER_HEAD[i] == ' ' ==> i == 6 || i == 26)
  {
  }

  lemma BasicIsHarmless(i: nat)
    requires i < |BASIC_HEAD|
    ensures Harmless(BASIC_HEAD, i) && (BASIC_HEAD[i] == ' ' ==> i == 5 || i == 24)
  {
  }

  lemma HeadIs(marker: string)
    requires marker in SCHEMES
    ensures marker + HEADER_NAME + marker
            == if marker == "bearer " then BEARER_HEAD else BASIC_HEAD
  {
  }

  lemma HeadIsHarmless(marker: string, i: nat)
    requires marker in SCHEMES && i < |marker + HEADER_NAME + marker|
    ensures var head := marker + HEADER_NAME + marker;
            && Harmless(head, i) && (i + 1 == |head| ==> head[i] == ' ')
            && (head[i] == ' ' ==> i + 1 == |marker| || i + 1 == |head|)
  {
    HeadIs(marker);
    if marker == "bearer " { BearerIsHarmless(i); } else { BasicIsHarmless(i); }
  }

  lemma BehindHead(head: string, digits: string, i: nat)
    requires Digits(digits) && i < |head + digits|
    requires i < |head| ==> Harmless(head, i) && (i + 1 == |head| ==> head[i] == ' ')
    ensures Harmless(head + digits, i) && ((head + digits)[i] == ' ' ==> i < |head| && head[i] == ' ')
  {
    if i >= |head| { assert digits[i - |head|] in digits; }
  }

  lemma GluedBytes(marker: string, digits: string, i: nat)
    requires marker in SCHEMES && Digits(digits) && i < |GluedText(marker, digits)|
    ensures var s := GluedText(marker, digits);
            && Harmless(s, i)
            && (s[i] == ' ' ==> i + 1 == |marker| || i + 1 == 2 * |marker| + |HEADER_NAME|)
  {
    var head := marker + HEADER_NAME + marker;
    if i < |head| { HeadIsHarmless(marker, i); }
    BehindHead(head, digits, i);
  }

  /** Only the two scheme names of the text occur in it. */
  lemma OccursWhereWritten(marker: string, digits: string, m: string, p: nat)
    requires marker in SCHEMES && m in SCHEMES && Digits(digits) && OccursAt(GluedText(marker, digits), m, p)
    ensures m == marker && (p == 0 || p == |marker + HEADER_NAME|)
  {
    var s, end := GluedText(marker, digits), p + |m|;
    assert m[|m| - 1] == s[p..end][|m| - 1] == s[end - 1];
    assert m[|m| - 2] == s[p..end][|m| - 2] == s[end - 2];
    GluedBytes(marker, digits, end - 1);
    assert s[|marker| - 2] == marker[|marker| - 2];
    assert s[2 * |marker| + |HEADER_NAME| - 2] == marker[|marker| - 2];
  }

  lemma TokenIsPassedOver(marker: string, digits: string, m: string, x: nat)
    requires marker in SCHEMES && m in SCHEMES && Digits(digits)
    ensures var s := GluedText(marker, digits); !IsSchemeToken(s, s, m, x, 0)
  {
    var s := GluedText(marker, digits);
    forall p: nat | IsVisited(s, s, m, p)
      ensures SchemeRange(s, s, m, p) == []
    {
      OccursWhereWritten(marker, digits, m, p);
      GluedIsPassedOver(marker, digits);
      assert s[..0] == "" && !AuthorizationContext("");
    }
  }

  lemma GluedIsLower(marker: string, digits: string)
    requires marker in SCHEMES && Digits(digits)
    ensures Lower(GluedText(marker, digits)) == GluedText(marker, digits)
    ensures '-' !in GluedText(marker, digits) && '=' !in GluedText(marker, digits) && ':' !in GluedText(marker, digits)
  {
    var s := GluedText(marker, digits);
    forall i | 0 <= i < |s|
      ensures Lower(s)[i] == s[i] && s[i] !in ['-', '=', ':']
    {
      GluedBytes(marker, digits, i);
    }
  }

  lemma GluedHoldsNoKey(marker: string, digits: string, m: string, p: nat)
    requires marker in SCHEMES && Digits(digits) && m in KEY_PREFIXES
    ensures !KeyAt(GluedText(marker, digits), m, p)
  {
    var s := GluedText(marker, digits);
    forall i | 0 <= i < |s| - 1
      ensures NoPrefixPair(LowerByte(s[i]), LowerByte(s[i + 1]))
    {
      GluedBytes(marker, digits, i);
      GluedBytes(marker, digits, i + 1);
    }
    NoKeyWithoutPair(s, m, p);
  }

  lemma GluedShown(marker: string, digits: string, x: nat)
    requires marker in SCHEMES && Digits(digits)
    ensures x !in Hidden(GluedText(marker, digits))
  {
    var s := GluedText(marker, digits);
    GluedIsLower(marker, digits);
    NoAssignmentWithoutSign(s, x);
    forall m | m in SCHEMES
      ensures !IsSchemeToken(s, s, m, x, 0)
    {
      TokenIsPassedOver(marker, digits, m, x);
    }
    forall m, p | m in KEY_PREFIXES
      ensures !KeyAt(s, m, p)
    {
      GluedHoldsNoKey(marker, digits, m, p);
    }
    NotHidden(s, x);
  }

  /** The token of a header that is glued to an earlier scheme name leaves unredacted, whatever its digits. */
  lemma TokenIsLeft(marker: string, digits: string)
    requires marker in SCHEMES && Digits(digits)
    ensures var s, p := GluedText(marker, digits), |marker + HEADER_NAME|;
            OccursAt(s, marker, p) && AuthorizationContext(s[..p]) && s[p + |marker|..] == digits && Redacted(s) == s
  {
    var s := GluedText(marker, digits);
    GluedIsPassedOver(marker, digits);
    GluedIsLower(marker, digits);
    NoPrivateKeyWithoutDash(s);
    forall x | 0 <= x < |s|
      ensures x !in Hidden(s)
    {
      GluedShown(marker, digits, x);
    }
    PaintNothing(s, Hidden(s));
  }
}
