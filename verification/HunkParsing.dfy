/**
 Reading one file's hunks out of a multi-file unified diff
 (clients/vscode/hunks.js, `parseFileHunks`), against a printer of such diffs.
 */
module HunkParsing {
  import opened Wrappers
  import opened Lines
  import opened Decimals
  import opened HunkRejection

  datatype ParseError = NoDiff | Binary | NoHunks

  // ----- The hunk header: /^@@ -(\d+)(?:,(\d+))? \+(\d+)(?:,(\d+))? @@(.*)$/

  datatype Range = Range(start: string, count: Option<string>, rest: string)

  datatype Header = Header(oldStart: string, oldCount: Option<string>,
                           newStart: string, newCount: Option<string>, heading: string)

  /** The characters `.` does not match. */
  predicate IsLineTerminator(c: char) {
    c == '\n' || c == '\r' || c == '\U{2028}' || c == '\U{2029}'
  }

  function DigitCount(s: string): (n: nat)
    ensures n <= |s| && AllDigits(s[..n])
    ensures n < |s| ==> !IsDigit(s[n])
  {
    if s == "" || !IsDigit(s[0]) then 0 else 1 + DigitCount(s[1..])
  }

  function Eat(s: string, prefix: string): Option<string> {
    if prefix <= s then Some(s[|prefix|..]) else None
  }

  function ParseRange(s: string): Option<Range> {
    var n := DigitCount(s);
    if n == 0 then None
    else
      var rest := s[n..];
      if rest != "" && rest[0] == ',' && DigitCount(rest[1..]) > 0 then
        var m := DigitCount(rest[1..]);
        Some(Range(s[..n], Some(rest[1..][..m]), rest[1..][m..]))
      else Some(Range(s[..n], None, rest))
  }

  function ParseHeader(line: string): (h: Option<Header>)
    ensures h.Some? ==> AllDigits(h.value.oldStart) && AllDigits(h.value.newStart)
    ensures h.Some? ==> "@@ " <= line
  {
    match Eat(line, "@@ -")
    case None => None
    case Some(s) =>
      assert "@@ -"[..3] == "@@ ";
      match ParseRange(s)
      case None => None
      case Some(before) =>
        match Eat(before.rest, " +")
        case None => None
        case Some(t) =>
          match ParseRange(t)
          case None => None
          case Some(after) =>
            match Eat(after.rest, " @@")
            case None => None
            case Some(heading) =>
              if exists c :: c in heading && IsLineTerminator(c) then None
              else Some(Header(before.start, before.count, after.start, after.count, heading))
  }

  function CountText(count: Option<string>): string {
    if count.Some? then count.value else "1"
  }

  /** The header with both counts spelled out. */
  function HeaderText(h: Header): string {
    "@@ -" + h.oldStart + "," + CountText(h.oldCount) + " +" + h.newStart + "," + CountText(h.newCount)
    + " @@" + h.heading
  }

  // ----- Sections and bodies

  function Marker(path: string): string { "diff --git a/" + path + " b/" + path }

  predicate OpensFile(line: string) { "diff --git " <= line }

  predicate OpensHunk(line: string) { "@@ " <= line }

  predicate IsBinaryNote(line: string) { line == "GIT binary patch" || "Binary files " <= line }

  predicate IsNoNewlineNote(line: string) { "\\ No newline" <= line }

  /** `findIndex`: the first line satisfying `p` from `from` on, or the length. */
  function FindIndex(lines: seq<string>, p: string -> bool, from: nat): (i: nat)
    requires from <= |lines|
    ensures from <= i <= |lines|
    ensures forall k :: from <= k < i ==> !p(lines[k])
    ensures i < |lines| ==> p(lines[i])
    decreases |lines| - from
  {
    if from == |lines| || p(lines[from]) then from else FindIndex(lines, p, from + 1)
  }

  function Section(lines: seq<string>, path: string): Option<seq<string>> {
    var start := FindIndex(lines, line => line == Marker(path), 0);
    if start == |lines| then None
    else Some(lines[start..FindIndex(lines, OpensFile, start + 1)])
  }

  function Kept(body: seq<string>): seq<string> {
    if body == [] then []
    else (if IsNoNewlineNote(body[0]) then [] else [body[0]]) + Kept(body[1..])
  }

  function MakeHunk(index: nat, h: Header, body: seq<string>): Hunk
    requires AllDigits(h.oldStart) && AllDigits(h.newStart)
  {
    Hunk(index, HeaderText(h), Value(h.oldStart), Value(h.newStart), Kept(body))
  }

  function SectionHunks(section: seq<string>, index: nat): seq<Hunk>
    decreases |section|
  {
    if section == [] then []
    else
      match ParseHeader(section[0])
      case None => SectionHunks(section[1..], index)
      case Some(h) =>
        var end := FindIndex(section, OpensHunk, 1);
        [MakeHunk(index, h, section[1..end])] + SectionHunks(section[end..], index + 1)
  }

  function ParsedHunks(unifiedDiff: string, path: string): Result<seq<Hunk>, ParseError> {
    match Section(Split(unifiedDiff), path)
    case None => Err(NoDiff)
    case Some(section) =>
      if exists line :: line in section && IsBinaryNote(line) then Err(Binary)
      else if SectionHunks(section, 0) == [] then Err(NoHunks)
      else Ok(SectionHunks(section, 0))
  }

  lemma {:induction false} KeptSnoc(body: seq<string>, line: string)
    ensures Kept(body + [line]) == Kept(body) + (if IsNoNewlineNote(line) then [] else [line])
  {
    if body != [] {
      KeptSnoc(body[1..], line);
      assert (body + [line])[1..] == body[1..] + [line];
    } else {
      assert body + [line] == [line];
    }
  }

  /** The inner loop: the body of the hunk whose header is line `from`. */
  method ReadBody(section: seq<string>, from: nat) returns (body: seq<string>, index: nat)
    requires from < |section|
    ensures index == FindIndex(section, OpensHunk, from + 1)
    ensures body == Kept(section[from + 1..index])
  {
    body, index := [], from + 1;
    while index < |section| && !OpensHunk(section[index])
      invariant from < index <= |section|
      invariant forall k :: from + 1 <= k < index ==> !OpensHunk(section[k])
      invariant body == Kept(section[from + 1..index])
    {
      assert section[from + 1..index + 1] == section[from + 1..index] + [section[index]];
      KeptSnoc(section[from + 1..index], section[index]);
      if !IsNoNewlineNote(section[index]) { body := body + [section[index]]; }
      index := index + 1;
    }
  }

  lemma {:induction false} FindIndexShift(lines: seq<string>, p: string -> bool, from: nat, skip: nat)
    requires skip <= from <= |lines|
    ensures FindIndex(lines, p, from) == skip + FindIndex(lines[skip..], p, from - skip)
    decreases |lines| - from
  {
    if from < |lines| && !p(lines[from]) { FindIndexShift(lines, p, from + 1, skip); }
  }

  lemma SectionHunksStep(section: seq<string>, from: nat, index: nat)
    requires from < |section|
    ensures ParseHeader(section[from]) == None ==>
              SectionHunks(section[from..], index) == SectionHunks(section[from + 1..], index)
    ensures ParseHeader(section[from]).Some? ==>
              var end := FindIndex(section, OpensHunk, from + 1);
              SectionHunks(section[from..], index) ==
              [MakeHunk(index, ParseHeader(section[from]).value, section[from + 1..end])]
              + SectionHunks(section[end..], index + 1)
  {
    var rest := section[from..];
    assert rest[0] == section[from] && rest[1..] == section[from + 1..];
    FindIndexShift(section, OpensHunk, from + 1, from);
    var end := FindIndex(rest, OpensHunk, 1);
    assert rest[1..end] == section[from + 1..from + end] && rest[end..] == section[from + end..];
  }

  method ParseFileHunks(unifiedDiff: string, path: string) returns (r: Result<seq<Hunk>, ParseError>)
    ensures r == ParsedHunks(unifiedDiff, path)
  {
    var lines := Split(unifiedDiff);
    var start := FindIndex(lines, line => line == Marker(path), 0);
    if start == |lines| { return Err(NoDiff); }
    var section := lines[start..FindIndex(lines, OpensFile, start + 1)];
    if exists line :: line in section && IsBinaryNote(line) { return Err(Binary); }
    var hunks := ReadSection(section);
    return if hunks == [] then Err(NoHunks) else Ok(hunks);
  }

  /** What is read plus what the rest of the section will give. */
  ghost function ReadSoFar(section: seq<string>, index: nat, hunks: seq<Hunk>): seq<Hunk>
    requires index <= |section|
  {
    hunks + SectionHunks(section[index..], |hunks|)
  }

  lemma ReadBounds(section: seq<string>, hunks: seq<Hunk>)
    ensures ReadSoFar(section, 0, []) == SectionHunks(section, 0)
    ensures ReadSoFar(section, |section|, hunks) == hunks
  {
    assert section[0..] == section && section[|section|..] == [];
  }

  /** The outer loop over one file's section. */
  method ReadSection(section: seq<string>) returns (hunks: seq<Hunk>)
    ensures hunks == SectionHunks(section, 0)
  {
    hunks := [];
    var index := 0;
    ghost var goal := ReadSoFar(section, index, hunks);
    ReadBounds(section, hunks);
    while index < |section|
      invariant 0 <= index <= |section| && ReadSoFar(section, index, hunks) == goal
    {
      hunks, index := ReadHunk(section, index, hunks);
    }
    ReadBounds(section, hunks);
  }

  /** One turn of the outer loop: a line that is no header is skipped, a header takes its body along. */
  method ReadHunk(section: seq<string>, index: nat, hunks: seq<Hunk>) returns (more: seq<Hunk>, next: nat)
    requires index < |section|
    ensures index < next <= |section| && ReadSoFar(section, next, more) == ReadSoFar(section, index, hunks)
  {
    SectionHunksStep(section, index, |hunks|);
    match ParseHeader(section[index]) {
      case None =>
        more, next := hunks, index + 1;
      case Some(h) =>
        var body;
        body, next := ReadBody(section, index);
        var hunk := Hunk(|hunks|, HeaderText(h), Value(h.oldStart), Value(h.newStart), body);
        more := hunks + [hunk];
        Assoc3(hunks, [hunk], SectionHunks(section[next..], |more|));
    }
  }

  // ----- Printing a diff

  datatype PrintedHunk = PrintedHunk(oldStart: nat, oldCount: Option<nat>, newStart: nat, newCount: Option<nat>,
                                     heading: string, body: seq<string>)

  datatype PrintedFile = PrintedFile(path: string, meta: seq<string>, hunks: seq<PrintedHunk>)

  function PrintCount(count: Option<nat>): string {
    if count.Some? then "," + ToDecimal(count.value) else ""
  }

  function NewRangeText(h: PrintedHunk): string {
    ToDecimal(h.newStart) + PrintCount(h.newCount) + (" @@" + h.heading)
  }

  function OldRangeText(h: PrintedHunk): string {
    ToDecimal(h.oldStart) + PrintCount(h.oldCount) + (" +" + NewRangeText(h))
  }

  function PrintHeader(h: PrintedHunk): string {
    "@@ -" + OldRangeText(h)
  }

  function PrintHunks(hunks: seq<PrintedHunk>): seq<string> {
    if hunks == [] then [] else [PrintHeader(hunks[0])] + hunks[0].body + PrintHunks(hunks[1..])
  }

  function PrintFile(file: PrintedFile): seq<string> {
    [Marker(file.path)] + file.meta + PrintHunks(file.hunks)
  }

  function PrintFiles(files: seq<PrintedFile>): seq<string> {
    if files == [] then [] else PrintFile(files[0]) + PrintFiles(files[1..])
  }

  function PrintDiff(files: seq<PrintedFile>): string {
    Join(PrintFiles(files) + [""])
  }

  predicate BodyLine(line: string) {
    IsContext(line) || IsAdded(line) || IsRemoved(line) || IsNoNewlineNote(line)
  }

  predicate MetaLine(line: string) {
    !OpensFile(line) && !OpensHunk(line) && !IsBinaryNote(line)
  }

  /** A hunk as git writes it; the heading is what follows the second `@@` on its line. */
  predicate GoodHunk(h: PrintedHunk) {
    NEWLINE !in h.heading && forall line :: line in h.body ==> BodyLine(line) && NEWLINE !in line
  }

  /** The header is recognised. */
  predicate IsSeen(h: PrintedHunk) {
    forall c :: c in h.heading ==> !IsLineTerminator(c)
  }

  predicate GoodFile(file: PrintedFile) {
    && NEWLINE !in file.path
    && (forall line :: line in file.meta ==> MetaLine(line) && NEWLINE !in line)
    && (forall h :: h in file.hunks ==> GoodHunk(h))
  }

  ghost predicate DistinctPaths(files: seq<PrintedFile>) {
    forall i, j :: 0 <= i < j < |files| ==> files[i].path != files[j].path
  }

  function TextCount(count: Option<nat>): Option<string> {
    if count.Some? then Some(ToDecimal(count.value)) else None
  }

  function HeaderOf(h: PrintedHunk): Header {
    Header(ToDecimal(h.oldStart), TextCount(h.oldCount), ToDecimal(h.newStart), TextCount(h.newCount), h.heading)
  }

  function HunkOf(h: PrintedHunk, index: nat, body: seq<string>): Hunk {
    Hunk(index, HeaderText(HeaderOf(h)), h.oldStart, h.newStart, Kept(body))
  }

  /** The body of the first hunk; the blank that `split` leaves ends the last one of the file. */
  function FirstBody(hunks: seq<PrintedHunk>, trailing: seq<string>): seq<string>
    requires hunks != []
  {
    hunks[0].body + (if |hunks| == 1 then trailing else [])
  }

  /** The hunks a reader gets back: those whose header is recognised. */
  function Expected(hunks: seq<PrintedHunk>, index: nat, trailing: seq<string>): seq<Hunk> {
    if hunks == [] then []
    else if IsSeen(hunks[0])
    then [HunkOf(hunks[0], index, FirstBody(hunks, trailing))] + Expected(hunks[1..], index + 1, trailing)
    else Expected(hunks[1..], index, trailing)
  }

  lemma {:induction false} DigitCountOf(digits: string, rest: string)
    requires AllDigits(digits)
    requires rest == "" || !IsDigit(rest[0])
    ensures DigitCount(digits + rest) == |digits|
  {
    if digits == "" {
      assert digits + rest == rest;
    } else {
      DigitCountOf(digits[1..], rest);
      assert (digits + rest)[1..] == digits[1..] + rest;
    }
  }

  lemma ParsePlainRange(digits: string, rest: string)
    requires digits != "" && AllDigits(digits)
    requires rest != "" && !IsDigit(rest[0]) && rest[0] != ','
    ensures ParseRange(digits + rest) == Some(Range(digits, None, rest))
  {
    DigitCountOf(digits, rest);
    var s := digits + rest;
    assert s[..|digits|] == digits && s[|digits|..] == rest;
  }

  lemma ParseCountedRange(digits: string, more: string, rest: string)
    requires digits != "" && AllDigits(digits) && more != "" && AllDigits(more)
    requires rest != "" && !IsDigit(rest[0])
    ensures ParseRange(digits + ([','] + (more + rest))) == Some(Range(digits, Some(more), rest))
  {
    var tail := [','] + (more + rest);
    DigitCountOf(digits, tail);
    DigitCountOf(more, rest);
    var s := digits + tail;
    assert s[..|digits|] == digits && s[|digits|..] == tail;
    assert tail[1..] == more + rest;
    assert tail[1..][..|more|] == more && tail[1..][|more|..] == rest;
  }

  lemma ParseRangePrinted(n: nat, count: Option<nat>, rest: string)
    requires rest != "" && rest[0] == ' '
    ensures ParseRange(ToDecimal(n) + PrintCount(count) + rest)
            == Some(Range(ToDecimal(n), TextCount(count), rest))
  {
    var s := ToDecimal(n) + PrintCount(count) + rest;
    if count.None? {
      assert s == ToDecimal(n) + rest;
      ParsePlainRange(ToDecimal(n), rest);
    } else {
      var more := ToDecimal(count.value);
      assert s == ToDecimal(n) + ([','] + (more + rest));
      ParseCountedRange(ToDecimal(n), more, rest);
    }
  }

  lemma EatPrefix(prefix: string, rest: string)
    ensures Eat(prefix + rest, prefix) == Some(rest)
  {
  }

  /** A printed header is recognised if and only if its heading holds no line terminator, and then read back. */
  lemma HeaderRoundTrip(h: PrintedHunk)
    ensures ParseHeader(PrintHeader(h)).Some? <==> IsSeen(h)
    ensures ParseHeader(PrintHeader(h)).Some? ==> ParseHeader(PrintHeader(h)) == Some(HeaderOf(h))
  {
    EatPrefix("@@ -", OldRangeText(h));
    ParseRangePrinted(h.oldStart, h.oldCount, " +" + NewRangeText(h));
    EatPrefix(" +", NewRangeText(h));
    ParseRangePrinted(h.newStart, h.newCount, " @@" + h.heading);
    EatPrefix(" @@", h.heading);
  }

  const CARRIAGE_RETURN := PrintedHunk(1, None, 1, None, "\r", [])

  /** A heading that ends in a carriage return, as in a file with such line ends, hides its header. */
  lemma CarriageReturnHidesHeader()
    ensures OpensHunk(PrintHeader(CARRIAGE_RETURN)) && ParseHeader(PrintHeader(CARRIAGE_RETURN)) == None
  {
    var h := CARRIAGE_RETURN;
    AtSignsOpenHunk(OldRangeText(h));
    HeaderRoundTrip(h);
    assert h.heading[0] in h.heading && IsLineTerminator(h.heading[0]);
  }

  lemma NoNewlineInDigits(s: string)
    requires AllDigits(s)
    ensures NEWLINE !in s
  {
  }

  lemma HeaderIsOneLine(h: PrintedHunk)
    requires GoodHunk(h)
    ensures NEWLINE !in PrintHeader(h)
  {
    NoNewlineInDigits(ToDecimal(h.oldStart));
    NoNewlineInDigits(ToDecimal(h.newStart));
    if h.oldCount.Some? { NoNewlineInDigits(ToDecimal(h.oldCount.value)); }
    if h.newCount.Some? { NoNewlineInDigits(ToDecimal(h.newCount.value)); }
    assert NEWLINE !in NewRangeText(h);
    assert NEWLINE !in OldRangeText(h);
  }

  lemma HeaderOpensNothingElse(h: PrintedHunk)
    ensures OpensHunk(PrintHeader(h)) && !OpensFile(PrintHeader(h)) && !IsBinaryNote(PrintHeader(h))
  {
    AtSignsOpenHunk(OldRangeText(h));
  }

  lemma AtSignsOpenHunk(rest: string)
    ensures var line := "@@ -" + rest; OpensHunk(line) && !OpensFile(line) && !IsBinaryNote(line)
  {
    var line := "@@ -" + rest;
    assert line[0] == '@' && line[..3] == "@@ ";
  }

  lemma BodyOpensNothing(line: string)
    requires BodyLine(line)
    ensures !OpensHunk(line) && !OpensFile(line) && !IsBinaryNote(line)
  {
    assert line[0] == ' ' || line[0] == '+' || line[0] == '-' || line[0] == '\\';
  }

  lemma MarkerOpensFile(path: string)
    ensures OpensFile(Marker(path)) && !IsBinaryNote(Marker(path)) && ParseHeader(Marker(path)) == None
    ensures NEWLINE !in path ==> NEWLINE !in Marker(path)
  {
    assert Marker(path)[0] == 'd';
    assert Marker(path)[..11] == "diff --git ";
  }

  lemma MarkerInjective(p: string, q: string)
    requires Marker(p) == Marker(q)
    ensures p == q
  {
    assert |Marker(p)| == 16 + 2 * |p|;
    assert Marker(p)[13..13 + |p|] == p;
    assert Marker(q)[13..13 + |q|] == q;
  }

  ghost predicate Inner(line: string) {
    !OpensFile(line) && !IsBinaryNote(line) && NEWLINE !in line
  }

  /** No line of a printed hunk opens a file or marks a binary one. */
  lemma {:induction false} HunkLinesAreInner(hunks: seq<PrintedHunk>)
    requires forall h :: h in hunks ==> GoodHunk(h)
    ensures forall line :: line in PrintHunks(hunks) ==> Inner(line)
  {
    if hunks != [] {
      HunkLinesAreInner(hunks[1..]);
      HeaderIsOneLine(hunks[0]);
      HeaderOpensNothingElse(hunks[0]);
      forall line | line in hunks[0].body
        ensures Inner(line)
      {
        BodyOpensNothing(line);
      }
    }
  }

  lemma FileLines(file: PrintedFile)
    requires GoodFile(file)
    ensures forall i :: 1 <= i < |PrintFile(file)| ==> Inner(PrintFile(file)[i])
    ensures PrintFile(file)[0] == Marker(file.path) && NEWLINE !in Marker(file.path)
  {
    HunkLinesAreInner(file.hunks);
    MarkerOpensFile(file.path);
    var lines := PrintFile(file);
    forall i | 1 <= i < |lines|
      ensures Inner(lines[i])
    {
      BehindFirst(Marker(file.path), file.meta, PrintHunks(file.hunks), i);
    }
  }

  lemma BehindFirst<T>(first: T, a: seq<T>, b: seq<T>, i: nat)
    requires 1 <= i < |[first] + a + b|
    ensures ([first] + a + b)[i] in a || ([first] + a + b)[i] in b
  {
    if i < 1 + |a| {
      assert ([first] + a + b)[i] == a[i - 1];
    } else {
      assert ([first] + a + b)[i] == b[i - 1 - |a|];
    }
  }

  /** The first line after a marker that opens a file is the next file's own marker. */
  lemma {:induction false} FilesLines(files: seq<PrintedFile>)
    requires forall f :: f in files ==> GoodFile(f)
    ensures forall line :: line in PrintFiles(files) ==> NEWLINE !in line
    ensures forall line :: line in PrintFiles(files) && OpensFile(line) ==>
              exists f :: f in files && line == Marker(f.path)
    ensures files != [] ==> PrintFiles(files) != [] && PrintFiles(files)[0] == Marker(files[0].path)
  {
    if files != [] {
      FilesLines(files[1..]);
      FileLines(files[0]);
      var lines := PrintFile(files[0]);
      forall line | line in PrintFiles(files)
        ensures NEWLINE !in line
        ensures OpensFile(line) ==> exists f :: f in files && line == Marker(f.path)
      {
        if line in lines {
          var i :| 0 <= i < |lines| && lines[i] == line;
          if i > 0 { assert Inner(lines[i]); }
        } else {
          assert line in PrintFiles(files[1..]);
        }
      }
    }
  }

  lemma {:induction false} PrintFilesSplit(files: seq<PrintedFile>, k: nat)
    requires k < |files|
    ensures PrintFiles(files) == PrintFiles(files[..k]) + PrintFile(files[k]) + PrintFiles(files[k + 1..])
  {
    if k == 0 {
      assert files[..0] == [];
    } else {
      PrintFilesSplit(files[1..], k - 1);
      assert files[..k][1..] == files[1..][..k - 1];
      assert files[1..][k..] == files[k + 1..];
      Assoc(PrintFile(files[0]), PrintFiles(files[..k][1..]), PrintFile(files[k]), PrintFiles(files[k + 1..]));
    }
  }

  lemma FindIndexIs(lines: seq<string>, p: string -> bool, from: nat, at: nat)
    requires from <= at <= |lines|
    requires forall k :: from <= k < at ==> !p(lines[k])
    requires at == |lines| || p(lines[at])
    ensures FindIndex(lines, p, from) == at
  {
  }

  /** What `split` leaves after the last file. */
  function Trailing(files: seq<PrintedFile>, k: nat): seq<string> {
    if k + 1 == |files| then [""] else []
  }

  /** The marker of a path is not printed for the files above it. */
  lemma MarkerNotAbove(files: seq<PrintedFile>, path: string)
    requires forall f :: f in files ==> GoodFile(f) && f.path != path
    ensures Marker(path) !in PrintFiles(files)
  {
    FilesLines(files);
    MarkerOpensFile(path);
    if Marker(path) in PrintFiles(files) {
      var f :| f in files && Marker(path) == Marker(f.path);
      MarkerInjective(f.path, path);
    }
  }

  /** Cutting a section out of lines that surround it. */
  lemma SectionBetween(above: seq<string>, own: seq<string>, below: seq<string>, path: string)
    requires Marker(path) !in above
    requires own != [] && own[0] == Marker(path)
    requires forall i :: 1 <= i < |own| ==> !OpensFile(own[i])
    requires below != [] ==> OpensFile(below[0])
    ensures Section(above + own + below, path) == Some(own)
  {
    var lines := above + own + below;
    var start, end := |above|, |above| + |own|;
    var isMarker := line => line == Marker(path);
    forall i | 0 <= i < start
      ensures !isMarker(lines[i])
    {
      assert lines[i] == above[i] && above[i] in above;
    }
    assert lines[start] == own[0];
    FindIndexIs(lines, isMarker, 0, start);
    forall i | start + 1 <= i < end
      ensures !OpensFile(lines[i])
    {
      assert lines[i] == own[i - start];
    }
    if below != [] { assert lines[end] == below[0]; }
    FindIndexIs(lines, OpensFile, start + 1, end);
    assert lines[start..end] == own;
  }

  lemma {:induction false} SectionOfPrinted(files: seq<PrintedFile>, k: nat)
    requires k < |files| && DistinctPaths(files)
    requires forall f :: f in files ==> GoodFile(f)
    ensures Section(PrintFiles(files) + [""], files[k].path) == Some(PrintFile(files[k]) + Trailing(files, k))
  {
    var above, own, below := PrintFiles(files[..k]), PrintFile(files[k]), PrintFiles(files[k + 1..]);
    PrintFilesSplit(files, k);
    MarkerNotAbove(files[..k], files[k].path);
    FilesLines(files[k + 1..]);
    FileLines(files[k]);
    if k + 1 == |files| {
      LastSection(above, own, files[k].path);
      assert above + own + [] == above + own;
    } else {
      MarkerOpensFile(files[k + 1].path);
      Assoc(above, own, below, [""]);
      SectionBetween(above, own, below + [""], files[k].path);
      assert own + [] == own;
    }
  }

  lemma LastSection(above: seq<string>, own: seq<string>, path: string)
    requires Marker(path) !in above
    requires own != [] && own[0] == Marker(path)
    requires forall i :: 1 <= i < |own| ==> !OpensFile(own[i])
    ensures Section(above + own + [""], path) == Some(own + [""])
  {
    assert above + own + [""] == above + (own + [""]) + [];
    SectionBetween(above, own + [""], [], path);
  }

  lemma {:induction false} SkipMeta(meta: seq<string>, rest: seq<string>, index: nat)
    requires forall line :: line in meta ==> ParseHeader(line) == None
    ensures SectionHunks(meta + rest, index) == SectionHunks(rest, index)
  {
    if meta == [] {
      assert meta + rest == rest;
    } else {
      assert (meta + rest)[0] == meta[0] && meta[0] in meta;
      assert (meta + rest)[1..] == meta[1..] + rest;
      SkipMeta(meta[1..], rest, index);
    }
  }

  lemma PrintHunksStart(hunks: seq<PrintedHunk>)
    requires forall h :: h in hunks ==> GoodHunk(h)
    ensures hunks != [] ==> PrintHunks(hunks) != [] && OpensHunk(PrintHunks(hunks)[0])
  {
    if hunks != [] { HeaderOpensNothingElse(hunks[0]); }
  }

  /** Reading one printed hunk whose body is followed by the next header or nothing. */
  lemma ReadOneHunk(h: PrintedHunk, body: seq<string>, more: seq<string>, index: nat)
    requires IsSeen(h)
    requires forall line :: line in body ==> !OpensHunk(line)
    requires more != [] ==> OpensHunk(more[0])
    ensures SectionHunks([PrintHeader(h)] + body + more, index) == [HunkOf(h, index, body)] + SectionHunks(more, index + 1)
  {
    var lines := [PrintHeader(h)] + body + more;
    HeaderRoundTrip(h);
    HunkEnds(PrintHeader(h), body, more);
    SectionHunksStep(lines, 0, index);
    assert lines[0..] == lines;
    ValueOfDecimal(h.oldStart);
    ValueOfDecimal(h.newStart);
  }

  /** The next header, or the end of the section, is found right behind the body. */
  lemma HunkEnds(header: string, body: seq<string>, more: seq<string>)
    requires forall line :: line in body ==> !OpensHunk(line)
    requires more != [] ==> OpensHunk(more[0])
    ensures var lines := [header] + body + more;
            && FindIndex(lines, OpensHunk, 1) == 1 + |body|
            && lines[1..1 + |body|] == body && lines[1 + |body|..] == more
  {
    var lines := [header] + body + more;
    var end := 1 + |body|;
    forall i | 1 <= i < end
      ensures !OpensHunk(lines[i])
    {
      assert lines[i] == body[i - 1] && body[i - 1] in body;
    }
    FindIndexIs(lines, OpensHunk, 1, end);
  }

  /** A header that is not recognised is skipped, and so is the body behind it. */
  lemma SkipUnseen(h: PrintedHunk, body: seq<string>, more: seq<string>, index: nat)
    requires !IsSeen(h) && forall line :: line in body ==> !OpensHunk(line)
    ensures SectionHunks([PrintHeader(h)] + body + more, index) == SectionHunks(more, index)
  {
    HeaderRoundTrip(h);
    var head := [PrintHeader(h)] + body;
    forall line | line in head
      ensures ParseHeader(line) == None
    {
      if line in body { assert !OpensHunk(line); }
    }
    SkipMeta(head, more, index);
  }

  lemma ReadOrSkip(h: PrintedHunk, body: seq<string>, more: seq<string>, index: nat)
    requires forall line :: line in body ==> !OpensHunk(line)
    requires more != [] ==> OpensHunk(more[0])
    ensures SectionHunks([PrintHeader(h)] + body + more, index) ==
            if IsSeen(h) then [HunkOf(h, index, body)] + SectionHunks(more, index + 1) else SectionHunks(more, index)
  {
    if IsSeen(h) { ReadOneHunk(h, body, more, index); } else { SkipUnseen(h, body, more, index); }
  }

  lemma FirstBodyOpensNothing(hunks: seq<PrintedHunk>, trailing: seq<string>)
    requires hunks != [] && GoodHunk(hunks[0]) && (trailing == [] || trailing == [""])
    ensures forall line :: line in FirstBody(hunks, trailing) ==> !OpensHunk(line)
  {
    forall line | line in FirstBody(hunks, trailing)
      ensures !OpensHunk(line)
    {
      if line in hunks[0].body { BodyOpensNothing(line); }
    }
  }

  lemma PrintHunksFirst(hunks: seq<PrintedHunk>, trailing: seq<string>)
    requires hunks != []
    ensures PrintHunks(hunks) + trailing == [PrintHeader(hunks[0])] + FirstBody(hunks, trailing)
              + (if |hunks| == 1 then [] else PrintHunks(hunks[1..]) + trailing)
  {
    var h, rest := hunks[0], PrintHunks(hunks[1..]);
    if |hunks| == 1 { RegroupLast([PrintHeader(h)], h.body, trailing); } else { Regroup([PrintHeader(h)], h.body, rest, trailing); }
  }

  lemma Regroup(header: seq<string>, body: seq<string>, rest: seq<string>, trailing: seq<string>)
    ensures header + body + rest + trailing == header + (body + []) + (rest + trailing)
  {
    assert body + [] == body;
  }

  lemma RegroupLast(header: seq<string>, body: seq<string>, trailing: seq<string>)
    ensures header + body + [] + trailing == header + (body + trailing) + []
  {
  }

  lemma {:induction false} ReadPrintedHunks(hunks: seq<PrintedHunk>, index: nat, trailing: seq<string>)
    requires forall h :: h in hunks ==> GoodHunk(h)
    requires trailing == [] || trailing == [""]
    ensures hunks != [] || trailing == [] ==> SectionHunks(PrintHunks(hunks) + trailing, index) == Expected(hunks, index, trailing)
    decreases hunks
  {
    if hunks != [] {
      var h, rest := hunks[0], hunks[1..];
      assert h in hunks;
      var more := if |hunks| == 1 then [] else PrintHunks(rest) + trailing;
      PrintHunksStart(rest);
      PrintHunksFirst(hunks, trailing);
      FirstBodyOpensNothing(hunks, trailing);
      ReadOrSkip(h, FirstBody(hunks, trailing), more, index);
      ReadPrintedHunks(rest, index + (if IsSeen(h) then 1 else 0), trailing);
    }
  }

  lemma SectionReads(file: PrintedFile, trailing: seq<string>)
    requires GoodFile(file)
    requires trailing == [] || trailing == [""]
    ensures SectionHunks(PrintFile(file) + trailing, 0) == Expected(file.hunks, 0, trailing)
  {
    var head := [Marker(file.path)] + file.meta;
    MarkerOpensFile(file.path);
    forall line | line in head
      ensures ParseHeader(line) == None
    {
      if line in file.meta { assert !OpensHunk(line); }
    }
    assert PrintFile(file) + trailing == head + (PrintHunks(file.hunks) + trailing);
    SkipMeta(head, PrintHunks(file.hunks) + trailing, 0);
    ReadPrintedHunks(file.hunks, 0, trailing);
    if file.hunks == [] { SkipMeta(trailing, [], 0); assert trailing + [] == [] + trailing == trailing; }
  }

  lemma SplitPrinted(files: seq<PrintedFile>)
    requires forall f :: f in files ==> GoodFile(f)
    ensures Split(PrintDiff(files)) == PrintFiles(files) + [""]
  {
    FilesLines(files);
    SplitJoin(PrintFiles(files) + [""]);
  }

  lemma NotBinary(file: PrintedFile, trailing: seq<string>)
    requires GoodFile(file)
    requires trailing == [] || trailing == [""]
    ensures forall line :: line in PrintFile(file) + trailing ==> !IsBinaryNote(line)
  {
    FileLines(file);
    MarkerOpensFile(file.path);
    forall line | line in PrintFile(file)
      ensures !IsBinaryNote(line)
    {
      var i :| 0 <= i < |PrintFile(file)| && PrintFile(file)[i] == line;
    }
  }

  /**
   Parsing a printed multi-file diff for one path returns exactly those hunks of that file whose
   heading holds no line terminator, and raises when there are none.
   */
  lemma ParsePrinted(files: seq<PrintedFile>, k: nat)
    requires k < |files| && DistinctPaths(files)
    requires forall f :: f in files ==> GoodFile(f)
    ensures var hunks := Expected(files[k].hunks, 0, Trailing(files, k));
            ParsedHunks(PrintDiff(files), files[k].path) == if hunks == [] then Err(NoHunks) else Ok(hunks)
  {
    SplitPrinted(files);
    SectionOfPrinted(files, k);
    SectionReads(files[k], Trailing(files, k));
    NotBinary(files[k], Trailing(files, k));
  }

  /** Asking for a path the diff does not list raises. */
  lemma ParseMissing(files: seq<PrintedFile>, path: string)
    requires forall f :: f in files ==> GoodFile(f) && f.path != path
    ensures ParsedHunks(PrintDiff(files), path) == Err(NoDiff)
  {
    SplitPrinted(files);
    MarkerNotAbove(files, path);
    var lines := PrintFiles(files) + [""];
    assert Marker(path) !in lines;
    FindIndexIs(lines, line => line == Marker(path), 0, |lines|);
  }

  // ----- Parsing and then rejecting everything

  /** The printed hunks describe the script, as `Describes` says of parsed ones. */
  ghost predicate Prints(hunks: seq<PrintedHunk>, script: seq<Chunk>, before: nat) {
    |hunks| == |script| &&
    (script != [] ==>
      var at := before + |script[0].gap|;
      && NewSide(hunks[0].body) == script[0].newLines
      && OldSide(hunks[0].body) == script[0].oldLines
      && hunks[0].newStart == (if script[0].newLines == [] then at else at + 1)
      && Prints(hunks[1..], script[1..], at + |script[0].newLines|))
  }

  lemma {:induction false} SidesOfKept(body: seq<string>, trailing: seq<string>)
    requires trailing == [] || trailing == [""]
    ensures NewSide(Kept(body + trailing)) == NewSide(body)
    ensures OldSide(Kept(body + trailing)) == OldSide(body)
  {
    if body == [] {
      assert body + trailing == trailing;
      if trailing == [""] {
        assert [""][1..] == [];
        assert Kept([""]) == [""];
      }
    } else {
      SidesOfKept(body[1..], trailing);
      assert (body + trailing)[1..] == body[1..] + trailing;
      SidesOfLine(body[0], body[1..], Kept(body[1..] + trailing));
      assert [body[0]] + body[1..] == body;
    }
  }

  /** A note is on neither side, so leaving it out changes none. */
  lemma SidesOfLine(line: string, body: seq<string>, rest: seq<string>)
    requires NewSide(rest) == NewSide(body) && OldSide(rest) == OldSide(body)
    ensures var kept := (if IsNoNewlineNote(line) then [] else [line]) + rest;
            NewSide(kept) == NewSide([line] + body) && OldSide(kept) == OldSide([line] + body)
  {
    assert ([line] + body)[1..] == body;
    if IsNoNewlineNote(line) {
      assert line[0] == '\\';
      assert [] + rest == rest;
    } else {
      assert ([line] + rest)[1..] == rest;
    }
  }

  /** All hunks of the file, numbered as the reader numbers those it sees. */
  function AllHunks(hunks: seq<PrintedHunk>, index: nat, trailing: seq<string>): seq<Hunk> {
    if hunks == [] then []
    else [HunkOf(hunks[0], index, FirstBody(hunks, trailing))]
         + AllHunks(hunks[1..], if IsSeen(hunks[0]) then index + 1 else index, trailing)
  }

  /** Which hunks the reader sees. */
  function Seen(hunks: seq<PrintedHunk>): (r: seq<bool>)
    ensures |r| == |hunks|
  {
    if hunks == [] then [] else [IsSeen(hunks[0])] + Seen(hunks[1..])
  }

  lemma {:induction false} AllHunksDescribe(hunks: seq<PrintedHunk>, script: seq<Chunk>, before: nat,
                                            index: nat, trailing: seq<string>)
    requires Prints(hunks, script, before)
    requires trailing == [] || trailing == [""]
    ensures Describes(AllHunks(hunks, index, trailing), script, before)
    decreases hunks
  {
    if hunks != [] {
      var next := if IsSeen(hunks[0]) then index + 1 else index;
      SidesOfKept(hunks[0].body, if |hunks| == 1 then trailing else []);
      AllHunksDescribe(hunks[1..], script[1..], before + |script[0].gap| + |script[0].newLines|, next, trailing);
      var e := AllHunks(hunks, index, trailing);
      assert e[1..] == AllHunks(hunks[1..], next, trailing);
    }
  }

  lemma {:induction false} ExpectedIsSelected(hunks: seq<PrintedHunk>, index: nat, trailing: seq<string>)
    ensures |AllHunks(hunks, index, trailing)| == |Seen(hunks)|
    ensures multiset(Expected(hunks, index, trailing)) == multiset(Selected(AllHunks(hunks, index, trailing), Seen(hunks)))
    decreases hunks
  {
    if hunks != [] {
      var next := if IsSeen(hunks[0]) then index + 1 else index;
      ExpectedIsSelected(hunks[1..], next, trailing);
      var all, first := AllHunks(hunks, index, trailing), HunkOf(hunks[0], index, FirstBody(hunks, trailing));
      assert all[1..] == AllHunks(hunks[1..], next, trailing) && Seen(hunks)[1..] == Seen(hunks[1..]);
      var rest := Selected(all[1..], Seen(hunks[1..]));
      assert multiset(rest + [first]) == multiset(rest) + multiset{first};
    }
  }

  lemma {:induction false} AllSeen(hunks: seq<PrintedHunk>)
    requires forall h :: h in hunks ==> IsSeen(h)
    ensures Seen(hunks) == Choice(|hunks|, true)
  {
    if hunks != [] {
      AllSeen(hunks[1..]);
      ChoiceTail(|hunks|, true);
    }
  }

  /**
   Parsing one file of a diff and rejecting all the hunks that come out restores the original
   lines with the unseen hunks applied, if and only if every seen deletion below the first line
   repeats the line above it.
   */
  lemma {:induction false} ParseThenRejectSeen(files: seq<PrintedFile>, k: nat, script: seq<Chunk>, tail: seq<string>)
    requires k < |files| && DistinctPaths(files)
    requires forall f :: f in files ==> GoodFile(f)
    requires Prints(files[k].hunks, script, 0) && Separated(script)
    ensures ParsedHunks(PrintDiff(files), files[k].path).Ok? <==> exists h :: h in files[k].hunks && IsSeen(h)
    ensures var parsed := ParsedHunks(PrintDiff(files), files[k].path);
            parsed.Ok? ==>
              (RevertAll(Current(script, tail), SortDescending(parsed.value)) == Ok(Assemble(script, tail, Seen(files[k].hunks)))
               <==> OnlyUnmovable(script, Seen(files[k].hunks), 0))
  {
    ParsePrinted(files, k);
    var hunks, trailing := files[k].hunks, Trailing(files, k);
    SomeExpected(hunks, 0, trailing);
    AllHunksDescribe(hunks, script, 0, 0, trailing);
    ExpectedIsSelected(hunks, 0, trailing);
    RejectExactly(script, tail, AllHunks(hunks, 0, trailing), Seen(hunks), Expected(hunks, 0, trailing));
  }

  lemma {:induction false} SomeExpected(hunks: seq<PrintedHunk>, index: nat, trailing: seq<string>)
    ensures Expected(hunks, index, trailing) != [] <==> exists h :: h in hunks && IsSeen(h)
    decreases hunks
  {
    if hunks != [] {
      SomeExpected(hunks[1..], index, trailing);
      assert hunks == [hunks[0]] + hunks[1..];
    }
  }

  /** When every header is recognised, rejecting everything restores the original lines, under the same condition. */
  lemma {:induction false} ParseThenRejectAll(files: seq<PrintedFile>, k: nat, script: seq<Chunk>, tail: seq<string>)
    requires k < |files| && DistinctPaths(files)
    requires forall f :: f in files ==> GoodFile(f)
    requires files[k].hunks != [] && forall h :: h in files[k].hunks ==> IsSeen(h)
    requires Prints(files[k].hunks, script, 0) && Separated(script)
    ensures ParsedHunks(PrintDiff(files), files[k].path).Ok?
    ensures var parsed := ParsedHunks(PrintDiff(files), files[k].path).value;
            RevertAll(Current(script, tail), SortDescending(parsed)) == Ok(Original(script, tail))
            <==> OnlyUnmovable(script, Choice(|script|, true), 0)
  {
    assert files[k].hunks[0] in files[k].hunks;
    AllSeen(files[k].hunks);
    ParseThenRejectSeen(files, k, script, tail);
  }
}
