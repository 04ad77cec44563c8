/**
 The runtime bundle validator (integrations/harbor/runtime.py): the bounded reader
 under the tar stream, and the layout checks over its members, for archives in the
 ustar interchange format of IEEE Std 1003.1.
 */
module Bundle {
  import opened Wrappers

  // ----- The bounded reader

  type byte = x: int | 0 <= x < 256

  /** How many of the `left` bytes a read of `size` returns; a negative size asks for all. */
  function ReadLength(size: int, left: nat): nat {
    if size < 0 || size > left then left else size
  }

  /** The decompressed stream: a read is short only at its end. */
  class Source {
    const data: seq<byte>
    var position: nat

    ghost predicate Valid()
      reads this
    {
      position <= |data|
    }

    constructor (data: seq<byte>)
      ensures this.data == data && position == 0 && Valid()
    {
      this.data := data;
      position := 0;
    }

    /** What the next read of `size` bytes returns. */
    function Next(size: int): seq<byte>
      requires Valid()
      reads this
    {
      data[position..position + ReadLength(size, |data| - position)]
    }

    method Read(size: int) returns (value: seq<byte>)
      requires Valid()
      modifies this
      ensures Valid() && value == old(Next(size)) && position == old(position) + |value|
    {
      value := Next(size);
      position := position + |value|;
    }
  }

  class LimitedReader {
    const source: Source
    const limit: nat
    var count: nat
    ghost var released: seq<byte>

    /** Every byte consumed is counted; what was released is a prefix of the stream within the limit. */
    ghost predicate Valid()
      reads this, source
    {
      && source.Valid() && count == source.position
      && |released| <= limit && |released| <= |source.data| && released == source.data[..|released|]
      && (count <= limit ==> |released| == count)
      && (count > limit ==> |source.data| > limit)
    }

    constructor (source: Source, limit: nat)
      requires source.Valid() && source.position == 0
      ensures this.source == source && this.limit == limit && Valid() && count == 0 && released == []
    {
      this.source := source;
      this.limit := limit;
      count, released := 0, [];
    }

    method Read(size: int) returns (r: Result<seq<byte>, string>)
      requires Valid()
      modifies this, source
      ensures Valid()
      ensures r.Ok? ==> released == old(released) + r.value && count == old(count) + |r.value|
      ensures r.Err? ==> released == old(released) && count > limit
      ensures r.Ok? && r.value == [] && size != 0 ==> count == |source.data|
      ensures |source.data| <= limit ==> r == Ok(old(source.Next(size)))
    {
      var remaining := limit - count;
      if remaining < 0 { return Err("over the limit"); }
      var asked := if size < 0 || size > remaining + 1 then remaining + 1 else size;
      var value := source.Read(asked);
      count := count + |value|;
      if count > limit { return Err("over the limit"); }
      released := released + value;
      assert released == source.data[..count];
      return Ok(value);
    }
  }

  /** Reading to the end gives the whole stream exactly when the stream fits the limit. */
  method ReadAll(data: seq<byte>, limit: nat, chunk: nat) returns (r: Result<seq<byte>, string>)
    requires chunk > 0
    ensures r.Ok? <==> |data| <= limit
    ensures r.Ok? ==> r.value == data
  {
    var source := new Source(data);
    var reader := new LimitedReader(source, limit);
    var all: seq<byte> := [];
    while true
      invariant fresh(source) && fresh(reader) && reader.source == source && source.data == data
      invariant reader.limit == limit && reader.Valid() && reader.count <= limit
      invariant all == reader.released
      decreases |data| - reader.count
    {
      var block := reader.Read(chunk);
      if block.Err? { return Err(block.error); }
      all := all + block.value;
      if block.value == [] {
        return Ok(all);
      }
    }
  }

  // ----- Member headers

  const BLOCK := 512
  const MAX_MANIFEST_BYTES := 64 * 1024
  const MAX_MEMBER_BYTES := 512 * 1024 * 1024
  const MAX_UNPACKED_BYTES := 1024 * 1024 * 1024
  const MAX_TAR_STREAM_BYTES := MAX_UNPACKED_BYTES + 10 * 1024 * 1024

  const MANIFEST := "manifest.json"
  const EXPECTED: seq<string> := [MANIFEST, "s-code", "s-code-cli", "s-code-daemon", "s-code-pdf-worker"]

  datatype MemberType = Regular | OldRegular | Other

  /** A header as tarfile reports it, and the number of data bytes it can read behind it. */
  datatype Member = Member(
    name: string, offset: int, dataOffset: int, size: int, stored: nat,
    kind: MemberType, linkname: string, hasPaxHeaders: bool, sparse: bool,
    uid: int, gid: int, uname: string, gname: string, mtime: int, mode: int)

  datatype BundleError =
    | HiddenHeader | Duplicate(name: string) | UnsafePath | Unexpected | NotRegular | HasLink | HasPax | IsSparse
    | BadOwner | BadTime | BadMode | BadSize | TooLarge | Truncated | BadPadding | MissingMembers

  /** The components of a POSIX path: empty ones and single dots do not count. */
  function Parts(name: string, from: nat, at: nat): seq<string>
    requires from <= at <= |name|
    decreases |name| - at
  {
    if at == |name| then Part(name[from..at])
    else if name[at] == '/' then Part(name[from..at]) + Parts(name, at + 1, at + 1)
    else Parts(name, from, at + 1)
  }

  function Part(s: string): seq<string> {
    if s == "" || s == "." then [] else [s]
  }

  predicate PathUnsafe(name: string) {
    var parts := Parts(name, 0, 0);
    || name == "" || '\\' in name || name[0] == '/'
    || |parts| != 1 || parts[0] == ".."
  }

  function ExpectedMode(name: string): int { if name == MANIFEST then 0x1A4 else 0x1ED }

  function MaxSize(name: string): int { if name == MANIFEST then MAX_MANIFEST_BYTES else MAX_MEMBER_BYTES }

  function HeaderError(m: Member): Option<BundleError> {
    if PathUnsafe(m.name) then Some(UnsafePath)
    else if m.name !in EXPECTED then Some(Unexpected)
    else if m.kind.Other? then Some(NotRegular)
    else if m.linkname != "" then Some(HasLink)
    else if m.hasPaxHeaders then Some(HasPax)
    else if m.sparse then Some(IsSparse)
    else if m.uid != 0 || m.gid != 0 || m.uname != "" || m.gname != "" then Some(BadOwner)
    else if m.mtime != 0 then Some(BadTime)
    else if m.mode != ExpectedMode(m.name) then Some(BadMode)
    else if m.size <= 0 || m.size > MaxSize(m.name) then Some(BadSize)
    else None
  }

  /** A header passes exactly when it is a plain, unowned, undated file of an expected name. */
  predicate PlainFile(m: Member) {
    && m.name in EXPECTED
    && !m.kind.Other? && m.linkname == "" && !m.hasPaxHeaders && !m.sparse
    && m.uid == 0 && m.gid == 0 && m.uname == "" && m.gname == "" && m.mtime == 0
    && m.mode == ExpectedMode(m.name) && 0 < m.size <= MaxSize(m.name)
  }

  /** No expected name is an unsafe path, so the path check refuses nothing else. */
  lemma HeaderPasses(m: Member)
    ensures HeaderError(m) == None <==> PlainFile(m)
  {
    if m.name in EXPECTED { ExpectedIsSafe(m.name); }
  }

  lemma {:induction false} PlainNameIsOnePart(name: string, at: nat)
    requires at <= |name| && '/' !in name
    ensures Parts(name, 0, at) == Part(name)
    decreases |name| - at
  {
    if at < |name| {
      assert name[at] in name;
      PlainNameIsOnePart(name, at + 1);
    } else {
      assert name[0..at] == name;
    }
  }

  lemma ExpectedIsSafe(name: string)
    requires name in EXPECTED
    ensures !PathUnsafe(name)
  {
    assert '/' !in name && '\\' !in name && |name| > 2;
    PlainNameIsOnePart(name, 0);
  }

  // ----- Layout

  /** The end of the block that holds the last of `n` bytes. */
  function PadToBlock(n: nat): (padded: nat)
    ensures n <= padded < n + 512
  {
    (n + 511) / 512 * 512
  }

  /** The end of the record that holds the last of `n` bytes. */
  function PadToRecord(n: nat): (padded: nat)
    ensures n <= padded < n + 10240
  {
    (n + 10239) / 10240 * 10240
  }

  /** Header and padded data of member `i` start where the member before it ends. */
  ghost predicate InPlace(members: seq<Member>, i: nat)
    requires i < |members|
  {
    members[i].dataOffset == members[i].offset + BLOCK && members[i].offset == LayoutEnd(members, i)
  }

  /** The headers and padded data of the first `n` members lie end to end from offset 0. */
  ghost predicate Tiles(members: seq<Member>, n: nat)
    requires n <= |members|
  {
    forall i :: 0 <= i < n ==> InPlace(members, i)
  }

  function LayoutEnd(members: seq<Member>, n: nat): int
    requires n <= |members|
  {
    if n == 0 then 0
    else members[n - 1].dataOffset + PadToBlock(if members[n - 1].size >= 0 then members[n - 1].size else 0)
  }

  function Unpacked(members: seq<Member>, n: nat): int
    requires n <= |members|
  {
    if n == 0 then 0 else Unpacked(members, n - 1) + members[n - 1].size
  }

  ghost predicate DistinctNames(members: seq<Member>, n: nat)
    requires n <= |members|
  {
    forall i, j :: 0 <= i < j < n ==> members[i].name != members[j].name
  }

  predicate Intact(m: Member) { PlainFile(m) && m.stored == m.size }

  ghost predicate PlainFiles(members: seq<Member>, n: nat)
    requires n <= |members|
  {
    forall i :: 0 <= i < n ==> Intact(members[i])
  }

  function StreamSize(members: seq<Member>): int {
    var end := LayoutEnd(members, |members|) + 2 * BLOCK;
    if end >= 0 then PadToRecord(end) else 0
  }

  /** The declarative acceptance condition. */
  ghost predicate Acceptable(members: seq<Member>, consumed: nat) {
    && Tiles(members, |members|)
    && DistinctNames(members, |members|)
    && PlainFiles(members, |members|)
    && Unpacked(members, |members|) <= MAX_UNPACKED_BYTES
    && consumed == StreamSize(members)
    && (forall name :: name in EXPECTED ==> exists i :: 0 <= i < |members| && members[i].name == name)
  }

  /** The checks of one turn of the member loop. */
  function MemberError(m: Member, next: int, names: set<string>, unpacked: int): Option<BundleError> {
    if m.offset != next || m.dataOffset != m.offset + BLOCK then Some(HiddenHeader)
    else if m.name in names then Some(Duplicate(m.name))
    else if HeaderError(m).Some? then HeaderError(m)
    else if unpacked + m.size > MAX_UNPACKED_BYTES then Some(TooLarge)
    else if m.stored != m.size then Some(Truncated)
    else None
  }

  ghost predicate CheckedUpTo(members: seq<Member>, n: nat)
    requires n <= |members|
  {
    && Tiles(members, n) && DistinctNames(members, n) && PlainFiles(members, n)
    && Unpacked(members, n) <= MAX_UNPACKED_BYTES
  }

  function Names(members: seq<Member>, n: nat): set<string>
    requires n <= |members|
  {
    set i | 0 <= i < n :: members[i].name
  }

  /** A name is new exactly when the names stay distinct. */
  lemma NewName(members: seq<Member>, n: nat)
    requires n < |members| && DistinctNames(members, n)
    ensures members[n].name !in Names(members, n) <==> DistinctNames(members, n + 1)
  {
    if members[n].name in Names(members, n) {
      var i :| 0 <= i < n && members[i].name == members[n].name;
      assert !DistinctNames(members, n + 1);
    }
  }

  lemma NoMemberError(m: Member, next: int, names: set<string>, unpacked: int)
    ensures MemberError(m, next, names, unpacked) == None <==>
            && m.offset == next && m.dataOffset == m.offset + BLOCK && m.name !in names
            && Intact(m) && unpacked + m.size <= MAX_UNPACKED_BYTES
  {
    HeaderPasses(m);
  }

  lemma MemberStep(members: seq<Member>, n: nat)
    requires n < |members| && CheckedUpTo(members, n)
    ensures MemberError(members[n], LayoutEnd(members, n), Names(members, n), Unpacked(members, n)) == None
            <==> CheckedUpTo(members, n + 1)
  {
    NoMemberError(members[n], LayoutEnd(members, n), Names(members, n), Unpacked(members, n));
    NewName(members, n);
    assert Unpacked(members, n + 1) == Unpacked(members, n) + members[n].size;
    assert Tiles(members, n + 1) <==> InPlace(members, n);
    assert PlainFiles(members, n + 1) <==> Intact(members[n]);
  }

  lemma {:induction false} UnpackedGrows(members: seq<Member>, n: nat, total: nat)
    requires n <= total <= |members| && PlainFiles(members, total)
    ensures Unpacked(members, n) <= Unpacked(members, total)
    decreases total - n
  {
    if n < total {
      assert Intact(members[total - 1]);
      UnpackedGrows(members, n, total - 1);
    }
  }

  lemma CheckedShorter(members: seq<Member>, n: nat, total: nat)
    requires n <= total <= |members| && CheckedUpTo(members, total)
    ensures CheckedUpTo(members, n)
  {
    UnpackedGrows(members, n, total);
  }

  /** The validator accepts exactly the acceptable archives. */
  method ValidateSnapshot(members: seq<Member>, consumed: nat) returns (r: Option<BundleError>)
    ensures r.None? <==> Acceptable(members, consumed)
  {
    var names: set<string> := {};
    var unpacked, next := 0, 0;
    for n := 0 to |members|
      invariant names == Names(members, n) && unpacked == Unpacked(members, n) && next == LayoutEnd(members, n)
      invariant CheckedUpTo(members, n)
    {
      var m := members[n];
      var error := MemberError(m, next, names, unpacked);
      MemberStep(members, n);
      if error.Some? {
        if CheckedUpTo(members, |members|) { CheckedShorter(members, n + 1, |members|); }
        return error;
      }
      NamesGrow(members, n);
      names := names + {m.name};
      unpacked := unpacked + m.size;
      next := m.dataOffset + PadToBlock(m.size);
    }
    LayoutEndPositive(members, |members|);
    if consumed != PadToRecord(next + 2 * BLOCK) { return Some(BadPadding); }
    AllNamed(members);
    if names != (set name | name in EXPECTED) { return Some(MissingMembers); }
    return None;
  }

  lemma NamesGrow(members: seq<Member>, n: nat)
    requires n < |members|
    ensures Names(members, n + 1) == Names(members, n) + {members[n].name}
  {
  }

  lemma AllNamed(members: seq<Member>)
    requires PlainFiles(members, |members|)
    ensures Names(members, |members|) == (set name | name in EXPECTED)
            <==> forall name :: name in EXPECTED ==> exists i :: 0 <= i < |members| && members[i].name == name
  {
    var expected := set name | name in EXPECTED;
    forall name | name in Names(members, |members|)
      ensures name in expected
    {
      var i :| 0 <= i < |members| && members[i].name == name;
      assert Intact(members[i]);
    }
    if Names(members, |members|) == expected {
      forall name | name in EXPECTED
        ensures exists i :: 0 <= i < |members| && members[i].name == name
      {
        assert name in Names(members, |members|);
      }
    }
  }

  lemma {:induction false} LayoutEndPositive(members: seq<Member>, n: nat)
    requires n <= |members| && Tiles(members, n)
    ensures LayoutEnd(members, n) >= 0
  {
    if n > 0 {
      LayoutEndPositive(members, n - 1);
      assert InPlace(members, n - 1);
    }
  }

  // ----- What acceptance means

  /** Byte `x` of the stream belongs to member `i`: its header or its padded data. */
  predicate InMember(members: seq<Member>, i: nat, x: int)
    requires i < |members|
  {
    members[i].offset <= x < LayoutEnd(members, i + 1)
  }

  /** Every byte up to the end blocks belongs to exactly one member. */
  lemma {:induction false} EveryByteHasOneMember(members: seq<Member>, n: nat, x: int) returns (i: nat)
    requires n <= |members| && Tiles(members, n) && 0 <= x < LayoutEnd(members, n)
    ensures i < n && InMember(members, i, x)
    ensures forall j :: 0 <= j < n && InMember(members, j, x) ==> j == i
  {
    var last := n - 1;
    assert InPlace(members, last);
    if x >= members[last].offset {
      i := last;
      forall j | 0 <= j < last
        ensures !InMember(members, j, x)
      {
        LayoutEndsGrow(members, j + 1, last);
      }
    } else {
      i := EveryByteHasOneMember(members, last, x);
    }
  }

  lemma {:induction false} LayoutEndsGrow(members: seq<Member>, n: nat, m: nat)
    requires n <= m <= |members| && Tiles(members, m)
    ensures LayoutEnd(members, n) <= LayoutEnd(members, m)
  {
    if n < m {
      LayoutEndsGrow(members, n, m - 1);
      var last := m - 1;
      assert InPlace(members, last);
    }
  }

  /** Five members, one for every expected name. */
  lemma ExactlyFiveMembers(members: seq<Member>, consumed: nat)
    requires Acceptable(members, consumed)
    ensures |members| == 5
    ensures forall name :: name in EXPECTED ==>
              exists i :: 0 <= i < |members| && members[i].name == name
                          && forall j :: 0 <= j < |members| && members[j].name == name ==> j == i
  {
    var names := Names(members, |members|);
    AllNamed(members);
    DistinctNamesCount(members, |members|);
    ExpectedCount();
    forall name | name in EXPECTED
      ensures exists i :: 0 <= i < |members| && members[i].name == name
                          && forall j :: 0 <= j < |members| && members[j].name == name ==> j == i
    {
      var i :| 0 <= i < |members| && members[i].name == name;
      forall j | 0 <= j < |members| && members[j].name == name
        ensures j == i
      {
      }
    }
  }

  lemma {:induction false} DistinctNamesCount(members: seq<Member>, n: nat)
    requires n <= |members| && DistinctNames(members, n)
    ensures |Names(members, n)| == n
  {
    if n > 0 {
      DistinctNamesCount(members, n - 1);
      NamesGrow(members, n - 1);
      assert members[n - 1].name !in Names(members, n - 1);
    }
  }

  lemma ExpectedCount()
    ensures |(set name | name in EXPECTED)| == 5
  {
    assert (set name | name in EXPECTED)
        == {"manifest.json"} + {"s-code"} + {"s-code-cli"} + {"s-code-daemon"} + {"s-code-pdf-worker"};
    assert |"s-code"| == 6 && |"s-code-cli"| == 10 && |"manifest.json"| == 13;
    assert |"s-code-daemon"| == 13 && "s-code-daemon"[0] == 's' && "manifest.json"[0] == 'm';
    assert |"s-code-pdf-worker"| == 17;
  }

  /** The stream stays below the reader's limit, so the limit refuses no acceptable archive. */
  lemma LimitIsSlack(members: seq<Member>, consumed: nat)
    requires Acceptable(members, consumed)
    ensures consumed <= MAX_TAR_STREAM_BYTES
    ensures consumed % 10240 == 0 && consumed >= LayoutEnd(members, |members|) + 2 * BLOCK
    ensures forall k: nat :: LayoutEnd(members, |members|) + 2 * BLOCK <= k * 10240 ==> consumed <= k * 10240
  {
    ExactlyFiveMembers(members, consumed);
    LayoutEndPositive(members, |members|);
    LayoutBound(members, |members|);
  }

  lemma {:induction false} LayoutBound(members: seq<Member>, n: nat)
    requires n <= |members| && Tiles(members, n) && PlainFiles(members, n)
    ensures LayoutEnd(members, n) <= Unpacked(members, n) + 2 * BLOCK * n
  {
    if n > 0 {
      LayoutBound(members, n - 1);
      var last := n - 1;
      assert InPlace(members, last);
      assert Intact(members[last]);
    }
  }
}
