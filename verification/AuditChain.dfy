/**
 The audit hash chain (crates/audit/src/lib.rs, `HashChain`). SHA-256 and the JSON
 encoding of an event are parameters; nothing is assumed of the hash, and of the
 encoding only, where it is needed, that it is injective.
 */
module AuditChain {
  import opened Wrappers

  type byte = x: int | 0 <= x < 256

  type Digest = d: seq<byte> | |d| == 32 witness
    [0, 0, 0, 0, 0, 0, 0, 0, 0, 0, 0, 0, 0, 0, 0, 0, 0, 0, 0, 0, 0, 0, 0, 0, 0, 0, 0, 0, 0, 0, 0, 0]

  datatype Event = Event(sequence: nat, body: string)

  /** A stored audit row: the event and the hash kept beside it. */
  datatype Record = Record(event: Event, hash: string)

  datatype Crypto = Crypto(sha256: seq<byte> -> Digest, encode: Event -> seq<byte>)

  const ZERO: Digest :=
    [0, 0, 0, 0, 0, 0, 0, 0, 0, 0, 0, 0, 0, 0, 0, 0, 0, 0, 0, 0, 0, 0, 0, 0, 0, 0, 0, 0, 0, 0, 0, 0]

  // ----- Hexadecimal

  function HexChar(n: byte): (c: char)
    requires n < 16
  {
    if n < 10 then '0' + n as char else 'a' + (n - 10) as char
  }

  function Hex(bytes: seq<byte>): (s: string)
    ensures |s| == 2 * |bytes|
  {
    if bytes == [] then ""
    else [HexChar(bytes[0] / 16), HexChar(bytes[0] % 16)] + Hex(bytes[1..])
  }

  function HexDigit(c: char): Option<byte> {
    if '0' <= c <= '9' then Some(c as int - '0' as int)
    else if 'a' <= c <= 'f' then Some(c as int - 'a' as int + 10)
    else if 'A' <= c <= 'F' then Some(c as int - 'A' as int + 10)
    else None
  }

  /** `u8::from_str_radix` on two characters: a leading plus sign is accepted. */
  function ParsePair(high: char, low: char): Option<byte> {
    match HexDigit(low)
    case None => None
    case Some(l) =>
      if high == '+' then Some(l)
      else match HexDigit(high) case None => None case Some(h) => if h < 16 && l < 16 then Some(16 * h + l) else None
  }

  /** Why a head is not read; slicing inside a character panics. */
  datatype HeadError = WrongLength | InvalidDigit | Torn

  /** A byte of UTF-8 text at which the text cannot be sliced. */
  predicate IsContinuation(c: char) { 0x80 <= c as int < 0xC0 }

  /** The pair loop over the bytes of a head: the slice comes first, then its digits. */
  function ParseHex(s: string): Result<seq<byte>, HeadError>
    requires |s| % 2 == 0
  {
    if s == "" then Ok([])
    else if |s| > 2 && IsContinuation(s[2]) then Err(Torn)
    else
      match ParsePair(s[0], s[1])
      case None => Err(InvalidDigit)
      case Some(b) => match ParseHex(s[2..]) case Err(e) => Err(e) case Ok(rest) => Ok([b] + rest)
  }

  function Head(previous: Digest): string { Hex(previous) }

  function ParseHead(head: string): Result<Digest, HeadError> {
    if |head| != 64 then Err(WrongLength)
    else
      match ParseHex(head)
      case Ok(d) => if |d| == 32 then Ok(d) else Err(WrongLength)
      case Err(e) => Err(e)
  }

  /** The first pair that is not two digits is cut in the middle of a character. */
  ghost predicate TearsAt(s: string, k: nat)
    requires |s| % 2 == 0
  {
    && 2 * k + 2 < |s| && IsContinuation(s[2 * k + 2])
    && forall j :: 0 <= j < k ==> ParsePair(s[2 * j], s[2 * j + 1]).Some? && !IsContinuation(s[2 * j + 2])
  }

  lemma TearsLater(s: string, k: nat)
    requires |s| % 2 == 0 && |s| > 2
    ensures TearsAt(s, k + 1) <==> ParsePair(s[0], s[1]).Some? && !IsContinuation(s[2]) && TearsAt(s[2..], k)
  {
    var rest := s[2..];
    if TearsAt(s, k + 1) {
      assert ParsePair(s[2 * 0], s[2 * 0 + 1]).Some? && !IsContinuation(s[2 * 0 + 2]);
      forall j | 0 <= j < k
        ensures ParsePair(rest[2 * j], rest[2 * j + 1]).Some? && !IsContinuation(rest[2 * j + 2])
      {
        assert ParsePair(s[2 * (j + 1)], s[2 * (j + 1) + 1]).Some? && !IsContinuation(s[2 * (j + 1) + 2]);
      }
    }
    if ParsePair(s[0], s[1]).Some? && !IsContinuation(s[2]) && TearsAt(rest, k) {
      forall j | 0 <= j < k + 1
        ensures ParsePair(s[2 * j], s[2 * j + 1]).Some? && !IsContinuation(s[2 * j + 2])
      {
        if j > 0 {
          var i := j - 1;
          assert ParsePair(rest[2 * i], rest[2 * i + 1]).Some? && !IsContinuation(rest[2 * i + 2]);
        }
      }
    }
  }

  /** Reading a head panics exactly when a pair behind valid pairs ends inside a character. */
  lemma {:induction false} TornExactly(s: string)
    requires |s| % 2 == 0
    ensures ParseHex(s) == Err(Torn) <==> exists k: nat :: TearsAt(s, k)
  {
    if |s| > 2 {
      TornExactly(s[2..]);
      if IsContinuation(s[2]) { assert TearsAt(s, 0); }
      if k: nat :| TearsAt(s, k) && k > 0 { TearsLater(s, k - 1); }
      if k: nat :| TearsAt(s[2..], k) {
        TearsLater(s, k);
        assert ParsePair(s[0], s[1]).Some? && !IsContinuation(s[2]) ==> TearsAt(s, k + 1);
      }
    } else if s != "" {
      assert s[2..] == "";
    }
  }

  lemma PairRoundTrip(b: byte)
    ensures ParsePair(HexChar(b / 16), HexChar(b % 16)) == Some(b)
  {
    var h, l := b / 16, b % 16;
    assert HexDigit(HexChar(h)) == Some(h);
    assert HexDigit(HexChar(l)) == Some(l);
    assert HexChar(h) != '+';
  }

  lemma DigitsAreNoContinuation(bytes: seq<byte>)
    ensures bytes != [] ==> !IsContinuation(Hex(bytes)[0])
  {
  }

  lemma {:induction false} HexRoundTrip(bytes: seq<byte>)
    ensures ParseHex(Hex(bytes)) == Ok(bytes)
  {
    if bytes != [] {
      HexRoundTrip(bytes[1..]);
      PairRoundTrip(bytes[0]);
      DigitsAreNoContinuation(bytes[1..]);
      assert Hex(bytes)[2..] == Hex(bytes[1..]);
      assert [bytes[0]] + bytes[1..] == bytes;
    }
  }

  lemma HexInjective(a: seq<byte>, b: seq<byte>)
    requires Hex(a) == Hex(b)
    ensures a == b
  {
    HexRoundTrip(a);
    HexRoundTrip(b);
  }

  /** A stored head restores the chain it was taken from. */
  lemma HeadRoundTrip(d: Digest)
    ensures ParseHead(Head(d)) == Ok(d)
  {
    HexRoundTrip(d);
  }

  predicate LowerHex(c: char) { '0' <= c <= '9' || 'a' <= c <= 'f' }

  lemma {:induction false} ParseHexLength(s: string)
    requires |s| % 2 == 0 && ParseHex(s).Ok?
    ensures 2 * |ParseHex(s).value| == |s|
  {
    if s != "" { ParseHexLength(s[2..]); }
  }

  lemma PairIsCanonical(high: char, low: char)
    requires ParsePair(high, low).Some?
    ensures var b := ParsePair(high, low).value;
            [HexChar(b / 16), HexChar(b % 16)] == [high, low] <==> LowerHex(high) && LowerHex(low)
  {
    var b := ParsePair(high, low).value;
    var l := HexDigit(low).value;
    if high == '+' {
      assert b / 16 == 0 && HexChar(0) == '0';
    } else {
      var h := HexDigit(high).value;
      assert b == 16 * h + l && b / 16 == h && b % 16 == l;
    }
  }

  /**
   Reading a head and writing it again gives the same text exactly when the text
   was lowercase hex: uppercase digits and a plus sign are accepted, and rewritten.
   */
  lemma {:induction false} ParsedHeadIsCanonical(s: string)
    requires |s| % 2 == 0 && ParseHex(s).Ok?
    ensures Hex(ParseHex(s).value) == s <==> forall c :: c in s ==> LowerHex(c)
  {
    if s != "" {
      ParsedHeadIsCanonical(s[2..]);
      PairIsCanonical(s[0], s[1]);
      var b, rest := ParsePair(s[0], s[1]).value, ParseHex(s[2..]).value;
      assert ParseHex(s).value == [b] + rest && ([b] + rest)[1..] == rest;
      var pair := [HexChar(b / 16), HexChar(b % 16)];
      assert Hex(ParseHex(s).value) == pair + Hex(rest);
      assert s == [s[0], s[1]] + s[2..];
      assert (pair + Hex(rest))[..2] == pair && (pair + Hex(rest))[2..] == Hex(rest);
      assert s[..2] == [s[0], s[1]];
      assert (forall c :: c in s ==> LowerHex(c))
        <==> LowerHex(s[0]) && LowerHex(s[1]) && forall c :: c in s[2..] ==> LowerHex(c);
    }
  }

  /** The head of a digest with a small first byte, with a plus sign for its first zero. */
  function PlusHead(d: Digest): string
    requires d[0] < 16
  {
    ['+', HexChar(d[0])] + Hex(d[1..])
  }

  /** A plus sign is accepted in a head, and the chain never writes one. */
  lemma PlusIsAccepted(d: Digest)
    requires d[0] < 16
    ensures |PlusHead(d)| == 64 && ParseHead(PlusHead(d)) == Ok(d) && Head(d) != PlusHead(d)
  {
    var head, rest := PlusHead(d), d[1..];
    HexRoundTrip(rest);
    assert head[2..] == Hex(rest);
    DigitsAreNoContinuation(rest);
    assert HexDigit(HexChar(d[0])) == Some(d[0]);
    assert ParseHex(head) == Ok([d[0]] + rest) && [d[0]] + rest == d;
    assert Head(d)[0] == HexChar(d[0] / 16) != '+';
  }

  lemma ZeroHeadWithPlus()
    ensures ParseHead(PlusHead(ZERO)) == Ok(ZERO) && Head(ZERO) != PlusHead(ZERO)
  {
    PlusIsAccepted(ZERO);
  }

  /** A digit and the two UTF-8 bytes of an accented e in front: 64 bytes on which reading a head panics. */
  function TornHead(rest: string): string { ['0', 0xC3 as char, 0xA9 as char] + rest }

  lemma TornHeadPanics(rest: string)
    requires |rest| == 61
    ensures |TornHead(rest)| == 64 && ParseHead(TornHead(rest)) == Err(Torn)
  {
    var s := TornHead(rest);
    assert TearsAt(s, 0);
    TornExactly(s);
  }

  // ----- The chain

  function Link(crypto: Crypto, previous: Digest, event: Event): Digest {
    crypto.sha256(previous + crypto.encode(event))
  }

  /** The running fold of a history from a given head. */
  function Fold(crypto: Crypto, from: Digest, events: seq<Event>): Digest {
    if events == [] then from
    else Link(crypto, Fold(crypto, from, events[..|events| - 1]), events[|events| - 1])
  }

  class HashChain {
    const crypto: Crypto
    var previous: Digest

    constructor (crypto: Crypto)
      ensures this.crypto == crypto && previous == ZERO
    {
      this.crypto := crypto;
      previous := ZERO;
    }

    constructor FromDigest(crypto: Crypto, previous: Digest)
      ensures this.crypto == crypto && this.previous == previous
    {
      this.crypto := crypto;
      this.previous := previous;
    }

    method Append(event: Event) returns (hash: string)
      modifies this
      ensures previous == Link(crypto, old(previous), event)
      ensures hash == Head(previous)
    {
      previous := Link(crypto, previous, event);
      hash := Head(previous);
    }
  }

  method FromHead(crypto: Crypto, head: string) returns (r: Result<HashChain, HeadError>)
    ensures r.Ok? <==> ParseHead(head).Ok?
    ensures r.Err? ==> r.error == ParseHead(head).error
    ensures r.Ok? ==> fresh(r.value) && r.value.crypto == crypto && r.value.previous == ParseHead(head).value
  {
    var parsed := ParseHead(head);
    if parsed.Err? { return Err(parsed.error); }
    var chain := new HashChain.FromDigest(crypto, parsed.value);
    return Ok(chain);
  }

  function Events(records: seq<Record>): (events: seq<Event>)
    ensures |events| == |records| && forall i :: 0 <= i < |records| ==> events[i] == records[i].event
  {
    if records == [] then [] else Events(records[..|records| - 1]) + [records[|records| - 1].event]
  }

  /** Row `i` has number i + 1 and the hash of the history up to it. */
  ghost predicate AuthenticRow(crypto: Crypto, records: seq<Record>, i: nat)
    requires i < |records|
  {
    && records[i].event.sequence == i + 1
    && records[i].hash == Head(Fold(crypto, ZERO, Events(records)[..i + 1]))
  }

  ghost predicate AuthenticUpTo(crypto: Crypto, records: seq<Record>, n: nat)
    requires n <= |records|
  {
    n == 0 || (AuthenticUpTo(crypto, records, n - 1) && AuthenticRow(crypto, records, n - 1))
  }

  /** Every row is authentic. */
  ghost predicate Authentic(crypto: Crypto, records: seq<Record>) {
    AuthenticUpTo(crypto, records, |records|)
  }

  lemma {:induction false} AuthenticAt(crypto: Crypto, records: seq<Record>, n: nat, i: nat)
    requires i < n <= |records| && AuthenticUpTo(crypto, records, n)
    ensures AuthenticRow(crypto, records, i)
  {
    if i < n - 1 { AuthenticAt(crypto, records, n - 1, i); }
  }

  lemma OneBadRow(crypto: Crypto, records: seq<Record>, i: nat)
    requires i < |records| && !AuthenticRow(crypto, records, i)
    ensures !Authentic(crypto, records)
  {
    if Authentic(crypto, records) { AuthenticAt(crypto, records, |records|, i); }
  }

  lemma FoldSnoc(crypto: Crypto, from: Digest, events: seq<Event>, k: nat)
    requires k < |events|
    ensures Fold(crypto, from, events[..k + 1]) == Link(crypto, Fold(crypto, from, events[..k]), events[k])
  {
    assert events[..k + 1][..k] == events[..k];
  }

  /** One turn of the verification loop. */
  method CheckRow(chain: HashChain, records: seq<Record>, k: nat) returns (ok: bool)
    requires k < |records| && chain.previous == Fold(chain.crypto, ZERO, Events(records)[..k])
    modifies chain
    ensures ok <==> AuthenticRow(chain.crypto, records, k)
    ensures ok ==> chain.previous == Fold(chain.crypto, ZERO, Events(records)[..k + 1])
  {
    var record := records[k];
    if record.event.sequence != k + 1 { return false; }
    FoldSnoc(chain.crypto, ZERO, Events(records), k);
    var computed := chain.Append(record.event);
    return computed == record.hash;
  }

  lemma WholePrefix<T>(s: seq<T>)
    ensures s[..0] == [] && s[..|s|] == s
  {
  }

  /** The verification loop over a chain that starts at the zero digest. */
  method CheckRows(chain: HashChain, records: seq<Record>) returns (bad: Option<nat>)
    requires chain.previous == ZERO
    modifies chain
    ensures bad.None? <==> Authentic(chain.crypto, records)
    ensures bad.None? ==> chain.previous == Fold(chain.crypto, ZERO, Events(records))
  {
    WholePrefix(Events(records));
    for k := 0 to |records|
      invariant chain.previous == Fold(chain.crypto, ZERO, Events(records)[..k])
      invariant AuthenticUpTo(chain.crypto, records, k)
    {
      var ok := CheckRow(chain, records, k);
      if !ok {
        OneBadRow(chain.crypto, records, k);
        return Some(records[k].event.sequence);
      }
    }
    return None;
  }

  /** Verification accepts exactly the authentic histories, and ends at their head. */
  method Verify(crypto: Crypto, records: seq<Record>) returns (r: Result<HashChain, nat>)
    ensures r.Ok? <==> Authentic(crypto, records)
    ensures r.Ok? ==> fresh(r.value) && r.value.crypto == crypto
    ensures r.Ok? ==> r.value.previous == Fold(crypto, ZERO, Events(records))
  {
    var chain := new HashChain(crypto);
    var bad := CheckRows(chain, records);
    return if bad.None? then Ok(chain) else Err(bad.value);
  }

  // ----- Resuming

  lemma {:induction false} FoldConcat(crypto: Crypto, from: Digest, first: seq<Event>, second: seq<Event>)
    ensures Fold(crypto, from, first + second) == Fold(crypto, Fold(crypto, from, first), second)
  {
    if second == [] {
      assert first + second == first;
    } else {
      var n := |second| - 1;
      FoldConcat(crypto, from, first, second[..n]);
      assert (first + second)[..|first + second| - 1] == first + second[..n];
    }
  }

  /** Verifying a prefix, resuming from its head and appending the rest ends where one pass does. */
  method ResumeAndAppend(crypto: Crypto, prefix: seq<Record>, rest: seq<Event>) returns (head: Option<string>)
    ensures head.Some? <==> Authentic(crypto, prefix)
    ensures head.Some? ==> head.value == Head(Fold(crypto, ZERO, Events(prefix) + rest))
  {
    var verified := Verify(crypto, prefix);
    if verified.Err? { return None; }
    HeadRoundTrip(verified.value.previous);
    var resumed := FromHead(crypto, Head(verified.value.previous));
    var chain := resumed.value;
    ghost var start := chain.previous;
    for k := 0 to |rest|
      invariant fresh(chain) && chain.crypto == crypto
      invariant chain.previous == Fold(crypto, start, rest[..k])
    {
      FoldSnoc(crypto, start, rest, k);
      var _ := chain.Append(rest[k]);
    }
    assert rest[..|rest|] == rest;
    FoldConcat(crypto, ZERO, Events(prefix), rest);
    return Some(Head(chain.previous));
  }

  // ----- Equal heads

  ghost predicate InjectiveEncoding(crypto: Crypto) {
    forall a, b :: crypto.encode(a) == crypto.encode(b) ==> a == b
  }

  /** Two different inputs of the hash with one digest. */
  ghost predicate Collision(crypto: Crypto, x: seq<byte>, y: seq<byte>) {
    x != y && crypto.sha256(x) == crypto.sha256(y)
  }

  lemma EqualInputs(crypto: Crypto, p: Digest, a: Event, q: Digest, b: Event)
    requires InjectiveEncoding(crypto)
    requires p + crypto.encode(a) == q + crypto.encode(b)
    ensures p == q && a == b
  {
    assert (p + crypto.encode(a))[..32] == p && (q + crypto.encode(b))[..32] == q;
    assert (p + crypto.encode(a))[32..] == crypto.encode(a) && (q + crypto.encode(b))[32..] == crypto.encode(b);
  }

  predicate Numbered(events: seq<Event>) {
    forall i :: 0 <= i < |events| ==> events[i].sequence == i + 1
  }

  /** Numbered histories that fold to one digest are equal, or two of their links collide. */
  lemma {:induction false} EqualFolds(crypto: Crypto, a: seq<Event>, b: seq<Event>)
    returns (x: seq<byte>, y: seq<byte>)
    requires InjectiveEncoding(crypto)
    requires a != [] && b != [] && Numbered(a) && Numbered(b)
    requires Fold(crypto, ZERO, a) == Fold(crypto, ZERO, b)
    ensures a == b || Collision(crypto, x, y)
    decreases |a|
  {
    var n, m := |a| - 1, |b| - 1;
    var p, q := Fold(crypto, ZERO, a[..n]), Fold(crypto, ZERO, b[..m]);
    x, y := p + crypto.encode(a[n]), q + crypto.encode(b[m]);
    if x == y {
      EqualInputs(crypto, p, a[n], q, b[m]);
      assert a[n].sequence == n + 1 && b[m].sequence == m + 1;
      assert n == m && a == a[..n] + [a[n]] && b == b[..n] + [b[n]];
      if n > 0 {
        x, y := EqualFolds(crypto, a[..n], b[..n]);
      } else {
        assert a[..n] == b[..n] == [];
      }
    }
  }

  lemma AuthenticIsNumbered(crypto: Crypto, records: seq<Record>)
    requires Authentic(crypto, records)
    ensures Numbered(Events(records))
  {
    forall i | 0 <= i < |records|
      ensures Events(records)[i].sequence == i + 1
    {
      AuthenticAt(crypto, records, |records|, i);
    }
  }

  /**
   Two non-empty verified histories with one head are the same history, record by
   record, unless the hash has collided on two of their links.
   */
  lemma EqualHeads(crypto: Crypto, a: seq<Record>, b: seq<Record>)
    returns (x: seq<byte>, y: seq<byte>)
    requires InjectiveEncoding(crypto)
    requires Authentic(crypto, a) && Authentic(crypto, b) && a != [] && b != []
    requires Head(Fold(crypto, ZERO, Events(a))) == Head(Fold(crypto, ZERO, Events(b)))
    ensures a == b || Collision(crypto, x, y)
  {
    HexInjective(Fold(crypto, ZERO, Events(a)), Fold(crypto, ZERO, Events(b)));
    AuthenticIsNumbered(crypto, a);
    AuthenticIsNumbered(crypto, b);
    x, y := EqualFolds(crypto, Events(a), Events(b));
    if Events(a) == Events(b) {
      forall i | 0 <= i < |a|
        ensures a[i] == b[i]
      {
        assert a[i].event == Events(a)[i] && b[i].event == Events(b)[i];
        AuthenticAt(crypto, a, |a|, i);
        AuthenticAt(crypto, b, |b|, i);
      }
    }
  }
}
