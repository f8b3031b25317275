/** The header of a pg_dump custom-format archive (packages/runtime/src/external-backup-import.ts). Its layout
    depends on the archive version; what is read decides whether an import is admitted. */
module PgDumpHeader {
  import opened Wrappers
  import opened ByteStrings

  const SAMPLE_BYTES := 8 * 1024
  const MAGIC: Bytes := [0x50, 0x47, 0x44, 0x4D, 0x50]    // PGDMP
  const FORMAT_CUSTOM: byte := 1

  function ArchiveVersion(major: byte, minor: byte, revision: byte): nat { (major * 256 + minor) * 256 + revision }

  const V1_0 := ArchiveVersion(1, 0, 0)
  const V1_2 := ArchiveVersion(1, 2, 0)
  const V1_4 := ArchiveVersion(1, 4, 0)
  const V1_7 := ArchiveVersion(1, 7, 0)
  const V1_10 := ArchiveVersion(1, 10, 0)
  const V1_15 := ArchiveVersion(1, 15, 0)
  const V_MAX := ArchiveVersion(1, 16, 0)

  /** EndsEarly: the bytes ended before a field did. TooLong: a string longer than a sample can hold. */
  datatype Reason = EndsEarly | TooLong | NotPgDump | TooNew | UnsupportedWidth | NotCustom
                  | NoServerVersion | UnreadableServerVersion

  datatype Read<+T> = Got(value: T, next: nat) | Rejected(why: Reason) {
    predicate IsFailure() { Rejected? }
    function PropagateFailure<U>(): Read<U> requires Rejected? { Rejected(why) }
    function Extract(): (T, nat) requires Got? { (value, next) }
  }

  /** Version, integer width and, once all of it is read, where the fields start. */
  datatype Layout = Layout(major: byte, minor: byte, revision: byte, width: byte) {
    function Version(): nat { ArchiveVersion(major, minor, revision) }
  }

  datatype Header = Header(major: byte, minor: byte, revision: byte,
                           engine: string, dump: Option<string>, database: Option<string>)

  // ----- What the readers read

  function ByteAt(b: Bytes, at: nat): Read<byte> {
    if at < |b| then Got(b[at], at + 1) else Rejected(EndsEarly)
  }

  /** Little-endian. */
  function Magnitude(b: Bytes): nat {
    if b == [] then 0 else b[0] + 256 * Magnitude(b[1..])
  }

  /** A sign byte, absent in version 1.0 and before, and the magnitude. */
  function IntAt(b: Bytes, at: nat, width: nat, version: nat): Read<int> {
    var first := if version > V1_0 then at + 1 else at;
    if |b| < first + width then Rejected(EndsEarly)
    else
      var magnitude: int := Magnitude(b[first..first + width]);
      Got(if at < first && b[at] != 0 then -magnitude else magnitude, first + width)
  }

  /** A length and that many bytes; a negative length stands for no string. */
  function StringAt(b: Bytes, at: nat, width: nat, version: nat): Read<Option<Bytes>> {
    var (length, start) :- IntAt(b, at, width, version);
    if length < 0 then Got(None, start)
    else if length > SAMPLE_BYTES then Rejected(TooLong)
    else if start + length > |b| then Rejected(EndsEarly)
    else Got(Some(b[start..start + length]), start + length)
  }

  function IntSize(width: nat, version: nat): nat {
    if version > V1_0 then width + 1 else width
  }

  /** Integers whose values do not matter. */
  function IntsAt(b: Bytes, at: nat, count: nat, width: nat, version: nat): Read<()> {
    var end := at + count * IntSize(width, version);
    if |b| < end then Rejected(EndsEarly) else Got((), end)
  }

  /** Where the compression field ends: a byte from 1.15 and before 1.4, an integer between, nothing before 1.2. */
  function CompressionAt(b: Bytes, at: nat, width: nat, version: nat): Read<()> {
    if version >= V1_15 || V1_2 <= version < V1_4 then
      var (_, next) :- ByteAt(b, at);
      Got((), next)
    else if version >= V1_4 then
      var (_, next) :- IntAt(b, at, width, version);
      Got((), next)
    else
      Got((), at)
  }

  /** The signature: a wrong byte is told from a missing one. */
  function MagicAt(b: Bytes): Read<()> {
    if exists i :: 0 <= i < |MAGIC| && i < |b| && b[i] != MAGIC[i] then Rejected(NotPgDump)
    else if |b| < |MAGIC| then Rejected(EndsEarly)
    else Got((), |MAGIC|)
  }

  function VersionAt(b: Bytes, at: nat): Read<(byte, byte, byte)> {
    var (major, at) :- ByteAt(b, at);
    var (minor, at) :- ByteAt(b, at);
    if major > 1 || (major == 1 && minor > 0) then
      var (revision, at) :- ByteAt(b, at);
      Got((major, minor, revision), at)
    else
      Got((major, minor, 0), at)
  }

  /** From 1.7 a byte with the width of file offsets precedes the format. */
  function FormatAt(b: Bytes, at: nat, version: nat): Read<byte> {
    if version >= V1_7 then
      var (_, at) :- ByteAt(b, at);
      ByteAt(b, at)
    else
      ByteAt(b, at)
  }

  function LayoutAt(b: Bytes): Read<Layout> {
    var (_, at) :- MagicAt(b);
    var (v, at) :- VersionAt(b, at);
    var version := ArchiveVersion(v.0, v.1, v.2);
    if version > V_MAX then Rejected(TooNew)
    else
      var (width, at) :- ByteAt(b, at);
      if width < 1 || width > 8 then Rejected(UnsupportedWidth)
      else
        var (format, at) :- FormatAt(b, at, version);
        if format != FORMAT_CUSTOM then Rejected(NotCustom)
        else
          var (_, at) :- CompressionAt(b, at, width, version);
          Got(Layout(v.0, v.1, v.2, width), at)
  }

  /** From 1.4: seven integers of the creation time, then the name of the database. */
  function DatabaseAt(b: Bytes, at: nat, width: nat, version: nat): Read<Option<Bytes>> {
    if version >= V1_4 then
      var (_, at) :- IntsAt(b, at, 7, width, version);
      StringAt(b, at, width, version)
    else
      Got(None, at)
  }

  function Text(b: Option<Bytes>, decode: Bytes -> string): Option<string> {
    if b.Some? then Some(decode(b.value)) else None
  }

  /** From 1.10: the server version and the pg_dump version; decode stands for UTF-8 decoding. */
  function VersionsAt(b: Bytes, at: nat, layout: Layout, database: Option<Bytes>, decode: Bytes -> string): Read<Header> {
    var (engine, at) :- StringAt(b, at, layout.width, layout.Version());
    var (dump, at) :- StringAt(b, at, layout.width, layout.Version());
    if engine.None? || MajorVersion(decode(engine.value)).None? then Rejected(UnreadableServerVersion)
    else
      Got(Header(layout.major, layout.minor, layout.revision,
                 decode(engine.value), Text(dump, decode), Text(database, decode)), at)
  }

  /** What parsePostgresCustomDumpHeader makes of the bytes. */
  function HeaderOf(b: Bytes, decode: Bytes -> string): Read<Header> {
    var (layout, at) :- LayoutAt(b);
    var (database, at) :- DatabaseAt(b, at, layout.width, layout.Version());
    if layout.Version() < V1_10 then Rejected(NoServerVersion) else VersionsAt(b, at, layout, database, decode)
  }

  // ----- The server version

  predicate IsSpace(c: char) {
    || '\t' <= c <= '\r' || c == ' ' || c == '\U{A0}' || c == '\U{1680}' || '\U{2000}' <= c <= '\U{200A}'
    || IsLineTerminator(c) || c == '\U{202F}' || c == '\U{205F}' || c == '\U{3000}' || c == '\U{FEFF}'
  }

  predicate IsLineTerminator(c: char) { c == '\n' || c == '\r' || c == '\U{2028}' || c == '\U{2029}' }

  predicate IsDigit(c: char) { '0' as int <= c as int <= '9' as int }

  predicate AllSpaces(s: string) { forall i :: 0 <= i < |s| ==> IsSpace(s[i]) }

  function SkipSpaces(s: string): string {
    if s != [] && IsSpace(s[0]) then SkipSpaces(s[1..]) else s
  }

  function DigitsAhead(s: string): nat {
    if s != [] && IsDigit(s[0]) then 1 + DigitsAhead(s[1..]) else 0
  }

  function Decimal(s: string): nat
    requires forall i :: 0 <= i < |s| ==> IsDigit(s[i])
  {
    if s == [] then 0
    else
      assert IsDigit(s[|s| - 1]);
      var digit: int := s[|s| - 1] as int - '0' as int;
      Decimal(s[..|s| - 1]) * 10 + digit
  }

  /** Spaces to the end, where a line ends or before. */
  predicate RestOfLine(s: string) {
    AllSpaces(s) || (!IsLineTerminator(s[0]) && RestOfLine(s[1..]))
  }

  /** parsePostgresMajorVersion: one to three digits among spaces, or with a rest after a dot or underscore. */
  function MajorVersion(s: string): Option<nat> {
    var t := SkipSpaces(s);
    var n := DigitsAhead(t);
    DigitsAreDigits(t);
    if 1 <= n <= 3 && (AllSpaces(t[n..]) || (t[n] in "._" && RestOfLine(t[n + 1..]))) && Decimal(t[..n]) > 0
    then Some(Decimal(t[..n])) else None
  }

  lemma DigitsAreDigits(s: string)
    ensures DigitsAhead(s) <= |s| && forall i :: 0 <= i < DigitsAhead(s) ==> IsDigit(s[i])
  {
  }

  /** What a regular expression calls white space, and what ends a line, by code point. */
  const SPACES: set<int> := {9, 10, 11, 12, 13, 32, 0xA0, 0x1680, 0x2000, 0x2001, 0x2002, 0x2003, 0x2004, 0x2005, 0x2006,
                             0x2007, 0x2008, 0x2009, 0x200A, 0x2028, 0x2029, 0x202F, 0x205F, 0x3000, 0xFEFF}
  const LINE_ENDS: set<int> := {10, 13, 0x2028, 0x2029}

  ghost predicate Blank(s: string) { forall i :: 0 <= i < |s| ==> s[i] as int in SPACES }

  /** The pattern: spaces, digits, an optional separator with more of the line, spaces. */
  ghost predicate Matches(before: string, digits: string, more: string, after: string) {
    && Blank(before) && Blank(after)
    && 1 <= |digits| <= 3 && (forall i :: 0 <= i < |digits| ==> digits[i] in "0123456789")
    && (more != [] ==> more[0] in "._" && forall i :: 1 <= i < |more| ==> more[i] as int !in LINE_ENDS)
  }

  /** The number ten times as large and a digit more. */
  ghost function ValueOf(digits: string): nat {
    if digits == "" then 0
    else
      var last := digits[|digits| - 1];
      10 * ValueOf(digits[..|digits| - 1])
      + if last == '1' then 1 else if last == '2' then 2 else if last == '3' then 3 else if last == '4' then 4
        else if last == '5' then 5 else if last == '6' then 6 else if last == '7' then 7 else if last == '8' then 8
        else if last == '9' then 9 else 0
  }

  lemma CharactersAre(c: char)
    ensures IsSpace(c) <==> c as int in SPACES
    ensures IsLineTerminator(c) <==> c as int in LINE_ENDS
    ensures IsDigit(c) <==> c in "0123456789"
  {
    if IsDigit(c) { assert "0123456789"[c as int - 48] == c; }
  }

  lemma {:induction false} ValueIs(digits: string)
    requires forall i :: 0 <= i < |digits| ==> IsDigit(digits[i])
    ensures Decimal(digits) == ValueOf(digits)
  {
    if digits != "" {
      ValueIs(digits[..|digits| - 1]);
      CharactersAre(digits[|digits| - 1]);
    }
  }

  ghost predicate MatchesAsRead(before: string, digits: string, more: string, after: string) {
    && AllSpaces(before) && AllSpaces(after)
    && 1 <= |digits| <= 3 && (forall i :: 0 <= i < |digits| ==> IsDigit(digits[i]))
    && (more != [] ==> more[0] in "._" && forall i :: 1 <= i < |more| ==> !IsLineTerminator(more[i]))
  }

  lemma MatchesAre(before: string, digits: string, more: string, after: string)
    ensures Matches(before, digits, more, after) <==> MatchesAsRead(before, digits, more, after)
  {
    forall c ensures (IsSpace(c) <==> c as int in SPACES) && (IsLineTerminator(c) <==> c as int in LINE_ENDS)
                     && (IsDigit(c) <==> c in "0123456789")
    {
      CharactersAre(c);
    }
  }

  lemma {:induction false} SpacesSkipped(before: string, s: string)
    requires AllSpaces(before) && s != [] && !IsSpace(s[0])
    ensures SkipSpaces(before + s) == s
  {
    if before == [] {
      assert before + s == s;
    } else {
      assert (before + s)[1..] == before[1..] + s;
      SpacesSkipped(before[1..], s);
    }
  }

  lemma {:induction false} SkipSpacesSplits(s: string) returns (before: string)
    ensures AllSpaces(before) && s == before + SkipSpaces(s)
  {
    before := [];
    if s != [] && IsSpace(s[0]) {
      var rest := SkipSpacesSplits(s[1..]);
      before := [s[0]] + rest;
    }
  }

  lemma {:induction false} DigitsCounted(digits: string, s: string)
    requires (forall i :: 0 <= i < |digits| ==> IsDigit(digits[i])) && (s != [] ==> !IsDigit(s[0]))
    ensures DigitsAhead(digits + s) == |digits|
  {
    if digits == [] {
      assert digits + s == s;
    } else {
      assert (digits + s)[1..] == digits[1..] + s;
      DigitsCounted(digits[1..], s);
    }
  }

  lemma {:induction false} RestOfLineFrom(more: string, after: string)
    requires AllSpaces(after) && forall i :: 0 <= i < |more| ==> !IsLineTerminator(more[i])
    ensures RestOfLine(more + after)
  {
    if more == [] {
      assert more + after == after;
    } else {
      assert (more + after)[1..] == more[1..] + after;
      RestOfLineFrom(more[1..], after);
    }
  }

  lemma {:induction false} RestOfLineSplits(s: string) returns (more: string, after: string)
    requires RestOfLine(s)
    ensures s == more + after && AllSpaces(after) && forall i :: 0 <= i < |more| ==> !IsLineTerminator(more[i])
  {
    if AllSpaces(s) {
      more, after := [], s;
    } else {
      var rest;
      rest, after := RestOfLineSplits(s[1..]);
      more := [s[0]] + rest;
    }
  }

  lemma MajorVersionOfMatch(before: string, digits: string, more: string, after: string)
    requires MatchesAsRead(before, digits, more, after) && Decimal(digits) > 0
    ensures MajorVersion(before + digits + more + after) == Some(Decimal(digits))
  {
    var rest := more + after;
    FourParts(before, digits + rest, |digits|, more, after);
    SpacesSkipped(before, digits + rest);
    RestMatches(more, after);
    DigitsCounted(digits, rest);
    assert (digits + rest)[|digits|..] == rest && (digits + rest)[..|digits|] == digits;
    if more != [] {
      assert (digits + rest)[|digits| + 1..] == rest[1..];
    }
  }

  lemma RestMatches(more: string, after: string)
    requires AllSpaces(after)
    requires more != [] ==> more[0] in "._" && forall i :: 1 <= i < |more| ==> !IsLineTerminator(more[i])
    ensures var rest := more + after;
            if more == [] then AllSpaces(rest) else rest[0] in "._" && RestOfLine(rest[1..])
  {
    if more == [] {
      assert more + after == after;
    } else {
      RestOfLineFrom(more[1..], after);
      assert (more + after)[1..] == more[1..] + after;
    }
  }

  lemma MatchOfMajorVersion(s: string) returns (before: string, digits: string, more: string, after: string)
    requires MajorVersion(s).Some?
    ensures MatchesAsRead(before, digits, more, after) && s == before + digits + more + after
    ensures MajorVersion(s) == Some(Decimal(digits)) && Decimal(digits) > 0
  {
    before := SkipSpacesSplits(s);
    var t := SkipSpaces(s);
    var n := DigitsAhead(t);
    DigitsAreDigits(t);
    digits := t[..n];
    more, after := TailSplits(t[n..]);
    FourParts(before, t, n, more, after);
  }

  lemma FourParts(before: string, t: string, n: nat, more: string, after: string)
    requires n <= |t| && t[n..] == more + after
    ensures before + t == before + t[..n] + more + after
  {
    assert t == t[..n] + (more + after);
  }

  lemma TailSplits(tail: string) returns (more: string, after: string)
    requires AllSpaces(tail) || (tail[0] in "._" && RestOfLine(tail[1..]))
    ensures tail == more + after && AllSpaces(after)
    ensures more != [] ==> more[0] in "._" && forall i :: 1 <= i < |more| ==> !IsLineTerminator(more[i])
  {
    if AllSpaces(tail) {
      more, after := [], tail;
    } else {
      more, after := RestOfLineSplits(tail[1..]);
      more := [tail[0]] + more;
    }
  }

  /** The version is read off exactly the texts that match. */
  lemma MajorVersionIffMatch(s: string, n: nat)
    ensures MajorVersion(s) == Some(n) <==>
            n > 0 && exists a, d, x, z :: Matches(a, d, x, z) && s == a + d + x + z && ValueOf(d) == n
  {
    if MajorVersion(s) == Some(n) {
      var before, digits, more, after := MatchOfMajorVersion(s);
      MatchesAre(before, digits, more, after);
      ValueIs(digits);
    } else if n > 0 {
      forall a, d, x, z | Matches(a, d, x, z) && ValueOf(d) == n ensures s != a + d + x + z {
        MatchesAre(a, d, x, z);
        ValueIs(d);
        MajorVersionOfMatch(a, d, x, z);
      }
    }
  }

  /** A header is parsed only if the version of its server can be read. */
  lemma ParsedIsReadable(b: Bytes, decode: Bytes -> string)
    ensures var h := HeaderOf(b, decode); h.Got? ==> MajorVersion(h.value.engine).Some?
  {
  }

  // ----- Appending bytes

  /** With more bytes behind, nothing changes but that the bytes end. */
  predicate Stable<T(==)>(short: Read<T>, long: Read<T>) {
    short == Rejected(EndsEarly) || long == short
  }

  lemma IntStable(b: Bytes, more: Bytes, at: nat, width: nat, version: nat)
    ensures Stable(IntAt(b, at, width, version), IntAt(b + more, at, width, version))
  {
    var first := if version > V1_0 then at + 1 else at;
    if first + width <= |b| {
      assert (b + more)[first..first + width] == b[first..first + width];
    }
  }

  lemma StringStable(b: Bytes, more: Bytes, at: nat, width: nat, version: nat)
    ensures Stable(StringAt(b, at, width, version), StringAt(b + more, at, width, version))
  {
    IntStable(b, more, at, width, version);
    var length := IntAt(b, at, width, version);
    if length.Got? && 0 <= length.value <= SAMPLE_BYTES && length.next + length.value <= |b| {
      var start, end := length.next, length.next + length.value;
      assert (b + more)[start..end] == b[start..end];
    }
  }

  lemma LayoutStable(b: Bytes, more: Bytes)
    ensures Stable(LayoutAt(b), LayoutAt(b + more))
  {
    MagicStable(b, more);
    forall at: nat, width: nat, version: nat
      ensures Stable(CompressionAt(b, at, width, version), CompressionAt(b + more, at, width, version))
    {
      IntStable(b, more, at, width, version);
    }
  }

  lemma MagicStable(b: Bytes, more: Bytes)
    ensures Stable(MagicAt(b), MagicAt(b + more))
  {
    if wrong :| 0 <= wrong < |MAGIC| && wrong < |b| && b[wrong] != MAGIC[wrong] {
      assert (b + more)[wrong] != MAGIC[wrong];
    }
  }

  lemma DatabaseStable(b: Bytes, more: Bytes, at: nat, width: nat, version: nat)
    ensures Stable(DatabaseAt(b, at, width, version), DatabaseAt(b + more, at, width, version))
  {
    var time := IntsAt(b, at, 7, width, version);
    if time.Got? {
      StringStable(b, more, time.next, width, version);
    }
  }

  lemma VersionsStable(b: Bytes, more: Bytes, at: nat, layout: Layout, database: Option<Bytes>, decode: Bytes -> string)
    ensures Stable(VersionsAt(b, at, layout, database, decode), VersionsAt(b + more, at, layout, database, decode))
  {
    StringStable(b, more, at, layout.width, layout.Version());
    var engine := StringAt(b, at, layout.width, layout.Version());
    if engine.Got? {
      StringStable(b, more, engine.next, layout.width, layout.Version());
    }
  }

  /** A verdict on a sample that reaches beyond the header is the verdict on the whole file. */
  lemma HeaderStable(b: Bytes, more: Bytes, decode: Bytes -> string)
    ensures Stable(HeaderOf(b, decode), HeaderOf(b + more, decode))
  {
    LayoutStable(b, more);
    var layout := LayoutAt(b);
    if layout.Got? {
      DatabaseStable(b, more, layout.next, layout.value.width, layout.value.Version());
      var database := DatabaseAt(b, layout.next, layout.value.width, layout.value.Version());
      if database.Got? {
        VersionsStable(b, more, database.next, layout.value, database.value, decode);
      }
    }
  }

  // ----- A writer, and reading back what it wrote

  /** What pg_dump wrote over the years. The layout in numbers: the revision from 1.1, the width of offsets from
      1.7, one byte of compression in 1.2, 1.3 and from 1.15, its level as an integer from 1.4 to 1.14, seven
      integers of time and the database from 1.4, the two versions from 1.10. */
  datatype Fields = Fields(layout: Layout, offsetWidth: byte, format: byte, algorithm: byte, level: int, time: seq<int>,
                           database: Option<Bytes>, engine: Option<Bytes>, dump: Option<Bytes>)

  /** The minor version of an archive 1.x, and less for one from before. */
  function Age(l: Layout): int { if l.major == 0 then -1 else l.minor }

  /** Up to 1.16.0; without a third number the revision is 0. */
  predicate Supported(l: Layout) {
    && (l.major == 0 || (l.major == 1 && (l.minor < 16 || (l.minor == 16 && l.revision == 0))))
    && (Age(l) <= 0 ==> l.revision == 0)
  }

  function Limit(width: nat): (limit: int)
    ensures limit >= 1
  {
    if width == 0 then 1 else 256 * Limit(width - 1)
  }

  predicate IntFits(v: int, width: nat) { -Limit(width) < v < Limit(width) }

  predicate StringFits(s: Option<Bytes>, width: nat) {
    s.Some? ==> |s.value| <= 8192 && IntFits(|s.value|, width)
  }

  /** A custom-format archive of a supported version, with fields that fit. */
  predicate Sound(f: Fields) {
    && Supported(f.layout) && 1 <= f.layout.width <= 8 && f.format == 1
    && IntFits(f.level, f.layout.width)
    && |f.time| == 7 && (forall i :: 0 <= i < 7 ==> IntFits(f.time[i], f.layout.width))
    && StringFits(f.database, f.layout.width) && StringFits(f.engine, f.layout.width)
    && StringFits(f.dump, f.layout.width)
  }

  /** One that states the version of its server. */
  predicate Writable(f: Fields) { Sound(f) && Age(f.layout) >= 10 }

  function LittleEndian(v: nat, width: nat): (b: Bytes)
    ensures |b| == width
  {
    if width == 0 then [] else [v % 256] + LittleEndian(v / 256, width - 1)
  }

  function WriteInt(v: int, width: nat): Bytes {
    [if v < 0 then 1 else 0] + LittleEndian(if v < 0 then -v else v, width)
  }

  function WriteInts(vs: seq<int>, width: nat): (b: Bytes)
    ensures |b| == |vs| * (width + 1)
  {
    if vs == [] then [] else WriteInt(vs[0], width) + WriteInts(vs[1..], width)
  }

  function WriteString(s: Option<Bytes>, width: nat): Bytes {
    if s.Some? then WriteInt(|s.value|, width) + s.value else WriteInt(-1, width)
  }

  function WriteCompression(f: Fields): Bytes {
    var age := Age(f.layout);
    if age >= 15 then [f.algorithm]
    else if age >= 4 then WriteInt(f.level, f.layout.width)
    else if age >= 2 then [f.algorithm]
    else []
  }

  /** PGDMP, the version, the width of integers, the width of offsets, the format. */
  function WriteFixed(f: Fields): Bytes {
    [0x50, 0x47, 0x44, 0x4D, 0x50, f.layout.major, f.layout.minor]
    + (if f.layout.major > 1 || Age(f.layout) >= 1 then [f.layout.revision] else [])
    + [f.layout.width] + (if f.layout.major > 1 || Age(f.layout) >= 7 then [f.offsetWidth] else []) + [f.format]
  }

  function WriteLayout(f: Fields): Bytes { WriteFixed(f) + WriteCompression(f) }

  function WriteDatabase(f: Fields): Bytes {
    if Age(f.layout) >= 4 then WriteInts(f.time, f.layout.width) + WriteString(f.database, f.layout.width) else []
  }

  function WriteVersions(f: Fields): Bytes {
    if Age(f.layout) >= 10 then WriteString(f.engine, f.layout.width) + WriteString(f.dump, f.layout.width) else []
  }

  function Write(f: Fields): Bytes {
    WriteLayout(f) + (WriteDatabase(f) + WriteVersions(f))
  }

  lemma {:induction false} LittleEndianReads(v: nat, width: nat)
    requires v < Limit(width)
    ensures Magnitude(LittleEndian(v, width)) == v
  {
    if width > 0 {
      LittleEndianReads(v / 256, width - 1);
      assert LittleEndian(v, width)[1..] == LittleEndian(v / 256, width - 1);
    }
  }

  lemma IntReads(b: Bytes, at: nat, v: int, width: nat, version: nat)
    requires version > 0x1_0000 && IntFits(v, width) && At(b, at, WriteInt(v, width))
    ensures IntAt(b, at, width, version) == Got(v, at + |WriteInt(v, width)|)
  {
    var magnitude := if v < 0 then -v else v;
    AtSplits(b, at, [if v < 0 then 1 else 0], LittleEndian(magnitude, width));
    LittleEndianReads(magnitude, width);
  }

  /** Up to 1.0 there is no sign. */
  lemma UnsignedIntReads(b: Bytes, at: nat, v: nat, width: nat, version: nat)
    requires version <= 0x1_0000 && v < Limit(width) && At(b, at, LittleEndian(v, width))
    ensures IntAt(b, at, width, version) == Got(v, at + width)
  {
    LittleEndianReads(v, width);
  }

  lemma LongStringRefused(b: Bytes, at: nat, n: nat, width: nat, version: nat)
    requires version > 0x1_0000 && n > 8192 && IntFits(n, width) && At(b, at, WriteInt(n, width))
    ensures StringAt(b, at, width, version) == Rejected(TooLong)
  {
    IntReads(b, at, n, width, version);
  }

  lemma StringReads(b: Bytes, at: nat, s: Option<Bytes>, width: nat, version: nat)
    requires version > 0x1_0000 && width >= 1 && StringFits(s, width) && At(b, at, WriteString(s, width))
    ensures StringAt(b, at, width, version) == Got(s, at + |WriteString(s, width)|)
  {
    if s.Some? {
      AtSplits(b, at, WriteInt(|s.value|, width), s.value);
      IntReads(b, at, |s.value|, width, version);
    } else {
      assert Limit(width) == 256 * Limit(width - 1);
      IntReads(b, at, -1, width, version);
    }
  }

  lemma FixedReads(b: Bytes, f: Fields)
    requires At(b, 0, WriteFixed(f))
    ensures MagicAt(b) == Got((), 5)
    ensures (f.layout.major <= 1 && Age(f.layout) <= 0 ==> f.layout.revision == 0) ==>
              VersionAt(b, 5) == Got((f.layout.major, f.layout.minor, f.layout.revision),
                                     if f.layout.major > 1 || Age(f.layout) >= 1 then 8 else 7)
  {
    assert forall i :: 0 <= i < |WriteFixed(f)| ==> b[i] == WriteFixed(f)[i];
  }

  /** Every supported layout is read to its end. */
  lemma LayoutReads(b: Bytes, f: Fields)
    requires Sound(f) && At(b, 0, WriteLayout(f))
    ensures LayoutAt(b) == Got(f.layout, |WriteLayout(f)|)
  {
    var fixed := WriteFixed(f);
    AtSplits(b, 0, fixed, WriteCompression(f));
    FixedReads(b, f);
    assert forall i :: 0 <= i < |fixed| ==> b[i] == fixed[i];
    if 4 <= Age(f.layout) < 15 {
      IntReads(b, |fixed|, f.level, f.layout.width, f.layout.Version());
    }
  }

  /** A later version, another width of integers or another format is refused, in this order. */
  lemma LayoutRefused(b: Bytes, f: Fields, decode: Bytes -> string)
    requires At(b, 0, WriteFixed(f)) && (f.layout.major <= 1 && Age(f.layout) <= 0 ==> f.layout.revision == 0)
    ensures var h := HeaderOf(b, decode);
            if !Supported(f.layout) then h == Rejected(TooNew)
            else if !(1 <= f.layout.width <= 8) then h == Rejected(UnsupportedWidth)
            else f.format != 1 ==> h == Rejected(NotCustom)
  {
    FixedReads(b, f);
    assert forall i :: 0 <= i < |WriteFixed(f)| ==> b[i] == WriteFixed(f)[i];
  }

  /** Other first bytes are no archive. */
  lemma OtherSignatureRefused(b: Bytes, i: nat, decode: Bytes -> string)
    requires i < 5 && i < |b| && b[i] != [0x50, 0x47, 0x44, 0x4D, 0x50][i]
    ensures HeaderOf(b, decode) == Rejected(NotPgDump)
  {
    assert b[i] != MAGIC[i];
  }

  lemma DatabaseReads(b: Bytes, at: nat, f: Fields)
    requires Sound(f) && At(b, at, WriteDatabase(f))
    ensures DatabaseAt(b, at, f.layout.width, f.layout.Version())
            == Got(if Age(f.layout) >= 4 then f.database else None, at + |WriteDatabase(f)|)
  {
    var width, version := f.layout.width, f.layout.Version();
    if Age(f.layout) >= 4 {
      var name := at + |WriteInts(f.time, width)|;
      AtSplits(b, at, WriteInts(f.time, width), WriteString(f.database, width));
      assert StringAt(b, name, width, version) == Got(f.database, at + |WriteDatabase(f)|) by {
        StringReads(b, name, f.database, width, version);
      }
      DatabaseOfParts(b, at, width, version);
    }
  }

  lemma DatabaseOfParts(b: Bytes, at: nat, width: nat, version: nat)
    requires version >= 0x1_0400
    ensures var name := at + 7 * IntSize(width, version);
            name <= |b| ==> DatabaseAt(b, at, width, version) == StringAt(b, name, width, version)
  {
  }

  lemma VersionsOfStrings(b: Bytes, at: nat, f: Fields, dumpAt: nat, end: nat, decode: Bytes -> string)
    requires StringAt(b, at, f.layout.width, f.layout.Version()) == Got(f.engine, dumpAt)
    requires StringAt(b, dumpAt, f.layout.width, f.layout.Version()) == Got(f.dump, end)
    ensures VersionsAt(b, at, f.layout, f.database, decode) == Expected(f, end, decode)
  {
  }

  lemma VersionsRead(b: Bytes, at: nat, f: Fields, decode: Bytes -> string)
    requires Writable(f) && At(b, at, WriteVersions(f))
    ensures VersionsAt(b, at, f.layout, f.database, decode) == Expected(f, at + |WriteVersions(f)|, decode)
  {
    var width, version := f.layout.width, f.layout.Version();
    var dumpAt := at + |WriteString(f.engine, width)|;
    AtSplits(b, at, WriteString(f.engine, width), WriteString(f.dump, width));
    assert StringAt(b, at, width, version) == Got(f.engine, dumpAt) by {
      StringReads(b, at, f.engine, width, version);
    }
    assert StringAt(b, dumpAt, width, version) == Got(f.dump, at + |WriteVersions(f)|) by {
      StringReads(b, dumpAt, f.dump, width, version);
    }
    VersionsOfStrings(b, at, f, dumpAt, at + |WriteVersions(f)|, decode);
  }

  /** The fields of the archive, if its server version can be read. */
  function Expected(f: Fields, end: nat, decode: Bytes -> string): Read<Header> {
    if f.engine.Some? && MajorVersion(decode(f.engine.value)).Some? then
      Got(Header(f.layout.major, f.layout.minor, f.layout.revision,
                 decode(f.engine.value), Text(f.dump, decode), Text(f.database, decode)), end)
    else
      Rejected(UnreadableServerVersion)
  }

  lemma HeaderOfParts(b: Bytes, layout: Layout, fields: nat, database: Option<Bytes>, versions: nat,
                      decode: Bytes -> string)
    requires LayoutAt(b) == Got(layout, fields)
    requires DatabaseAt(b, fields, layout.width, layout.Version()) == Got(database, versions)
    ensures HeaderOf(b, decode) == if layout.Version() >= 0x1_0A00 then VersionsAt(b, versions, layout, database, decode)
                                   else Rejected(NoServerVersion)
  {
  }

  lemma WrittenParts(f: Fields, rest: Bytes)
    ensures var b, fields := Write(f) + rest, |WriteLayout(f)|;
            && At(b, 0, WriteLayout(f)) && At(b, fields, WriteDatabase(f))
            && At(b, fields + |WriteDatabase(f)|, WriteVersions(f))
  {
    var b := Write(f) + rest;
    AtSplits(b, 0, WriteLayout(f), WriteDatabase(f) + WriteVersions(f));
    AtSplits(b, |WriteLayout(f)|, WriteDatabase(f), WriteVersions(f));
  }

  /** An archive from before 1.10 does not say which server it comes from. */
  lemma OldArchiveRefused(f: Fields, rest: Bytes, decode: Bytes -> string)
    requires Sound(f) && Age(f.layout) < 10
    ensures HeaderOf(Write(f) + rest, decode) == Rejected(NoServerVersion)
  {
    var b := Write(f) + rest;
    WrittenParts(f, rest);
    LayoutReads(b, f);
    DatabaseReads(b, |WriteLayout(f)|, f);
    HeaderOfParts(b, f.layout, |WriteLayout(f)|, if Age(f.layout) >= 4 then f.database else None,
                  |WriteLayout(f)| + |WriteDatabase(f)|, decode);
  }

  /** Reading what was written, whatever follows it in the file. */
  lemma HeaderReads(f: Fields, rest: Bytes, decode: Bytes -> string)
    requires Writable(f)
    ensures HeaderOf(Write(f) + rest, decode) == Expected(f, |Write(f)|, decode)
  {
    var b := Write(f) + rest;
    WrittenParts(f, rest);
    LayoutReads(b, f);
    DatabaseReads(b, |WriteLayout(f)|, f);
    var versions := |WriteLayout(f)| + |WriteDatabase(f)|;
    HeaderOfParts(b, f.layout, |WriteLayout(f)|, f.database, versions, decode);
    VersionsRead(b, versions, f, decode);
  }

  /** The agent samples the first bytes of a file. */
  function SampleOf(file: Bytes): Bytes {
    if |file| <= SAMPLE_BYTES then file else file[..SAMPLE_BYTES]
  }

  /** A header no longer than the sample is judged on the sample as on the whole file. */
  lemma SampleDecides(f: Fields, rest: Bytes, decode: Bytes -> string)
    requires Writable(f) && |Write(f)| <= 8192
    ensures HeaderOf(SampleOf(Write(f) + rest), decode) == HeaderOf(Write(f) + rest, decode) == HeaderOf(Write(f), decode)
  {
    var kept := CutBehind(Write(f), rest);
    HeaderReads(f, rest, decode);
    HeaderReads(f, kept, decode);
    HeaderReads(f, [], decode);
  }

  lemma CutBehind(header: Bytes, rest: Bytes) returns (kept: Bytes)
    requires |header| <= 8192
    ensures SampleOf(header + rest) == header + kept && header + [] == header
  {
    kept := if |header + rest| <= SAMPLE_BYTES then rest else rest[..SAMPLE_BYTES - |header|];
  }

  // ----- The readers

  lemma SliceGrows(b: Bytes, from: nat, to: nat)
    requires from <= to < |b|
    ensures b[from..to + 1] == b[from..to] + [b[to]]
  {
  }

  lemma Regrouped(x: int, y: int, z: int)
    ensures x * (y * z) == y * (x * z)
  {
  }

  /** With fewer of them, less is needed. */
  lemma FewerInts(count: nat, total: nat, size: nat)
    requires count < total
    ensures (count + 1) * size == count * size + size <= total * size
  {
  }

  lemma {:induction false} MagnitudeOfMore(b: Bytes, last: byte)
    ensures Magnitude(b + [last]) == Magnitude(b) + last * Limit(|b|)
  {
    if b == [] {
      assert [last][1..] == [];
    } else {
      assert (b + [last])[1..] == b[1..] + [last];
      MagnitudeOfMore(b[1..], last);
      Regrouped(256, last, Limit(|b| - 1));
    }
  }

  class ByteCursor {
    const bytes: Bytes
    var offset: nat

    constructor (bytes: Bytes)
      ensures this.bytes == bytes && offset == 0
    {
      this.bytes, offset := bytes, 0;
    }

    method ReadByte() returns (r: Read<byte>)
      requires offset <= |bytes|
      modifies this
      ensures offset <= |bytes|
      ensures r == ByteAt(bytes, old(offset)) && (r.Got? ==> offset == r.next)
    {
      if offset >= |bytes| {
        return Rejected(EndsEarly);
      }
      offset := offset + 1;
      r := Got(bytes[offset - 1], offset);
    }

    method ReadArchiveInt(width: nat, version: nat) returns (r: Read<int>)
      requires offset <= |bytes|
      modifies this
      ensures offset <= |bytes|
      ensures r == IntAt(bytes, old(offset), width, version) && (r.Got? ==> offset == r.next)
    {
      var signed := false;
      if version > V1_0 {
        var sign :- ReadByte();
        signed := sign.0 != 0;
      }
      ghost var first := offset;
      var value := 0;
      for index := 0 to width
        invariant offset == first + index <= |bytes| && value == Magnitude(bytes[first..offset])
      {
        var next :- ReadByte();
        MagnitudeOfMore(bytes[first..first + index], next.0);
        SliceGrows(bytes, first, first + index);
        value := value + next.0 * Limit(index);
      }
      r := Got(if signed then -value else value, offset);
    }

    method ReadArchiveString(width: nat, version: nat) returns (r: Read<Option<Bytes>>)
      requires offset <= |bytes|
      modifies this
      ensures offset <= |bytes|
      ensures r == StringAt(bytes, old(offset), width, version) && (r.Got? ==> offset == r.next)
    {
      var length :- ReadArchiveInt(width, version);
      if length.0 < 0 {
        return Got(None, offset);
      }
      if length.0 > SAMPLE_BYTES {
        return Rejected(TooLong);
      }
      var end := offset + length.0;
      if end > |bytes| {
        return Rejected(EndsEarly);
      }
      r := Got(Some(bytes[offset..end]), end);
      offset := end;
    }

    method ReadMagic() returns (r: Read<()>)
      requires offset == 0
      modifies this
      ensures offset <= |bytes|
      ensures r == MagicAt(bytes) && (r.Got? ==> offset == r.next)
    {
      for i := 0 to |MAGIC|
        invariant offset == i <= |bytes| && bytes[..i] == MAGIC[..i]
      {
        var next :- ReadByte();
        if next.0 != MAGIC[i] {
          return Rejected(NotPgDump);
        }
      }
      r := Got((), offset);
    }

    method ReadLayout() returns (r: Read<Layout>)
      requires offset == 0
      modifies this
      ensures offset <= |bytes|
      ensures r == LayoutAt(bytes) && (r.Got? ==> offset == r.next)
    {
      var _ :- ReadMagic();
      var major :- ReadByte();
      var minor :- ReadByte();
      var revision: byte := 0;
      if major.0 > 1 || (major.0 == 1 && minor.0 > 0) {
        var third :- ReadByte();
        revision := third.0;
      }
      var version := ArchiveVersion(major.0, minor.0, revision);
      if version > V_MAX {
        return Rejected(TooNew);
      }
      var width :- ReadByte();
      if width.0 < 1 || width.0 > 8 {
        return Rejected(UnsupportedWidth);
      }
      if version >= V1_7 {
        var _ :- ReadByte();
      }
      var format :- ReadByte();
      if format.0 != FORMAT_CUSTOM {
        return Rejected(NotCustom);
      }
      if version >= V1_15 {
        var _ :- ReadByte();
      } else if version >= V1_2 {
        if version < V1_4 {
          var _ :- ReadByte();
        } else {
          var _ :- ReadArchiveInt(width.0, version);
        }
      }
      r := Got(Layout(major.0, minor.0, revision, width.0), offset);
    }

    method ReadDatabase(width: nat, version: nat) returns (r: Read<Option<Bytes>>)
      requires offset <= |bytes|
      modifies this
      ensures offset <= |bytes|
      ensures r == DatabaseAt(bytes, old(offset), width, version) && (r.Got? ==> offset == r.next)
    {
      if version < V1_4 {
        return Got(None, offset);
      }
      var _ :- SkipInts(7, width, version);
      r := ReadArchiveString(width, version);
    }

    method SkipInts(count: nat, width: nat, version: nat) returns (r: Read<()>)
      requires offset <= |bytes|
      modifies this
      ensures offset <= |bytes|
      ensures r == IntsAt(bytes, old(offset), count, width, version) && (r.Got? ==> offset == r.next)
    {
      ghost var first, size := offset, IntSize(width, version);
      for field := 0 to count
        invariant offset == first + field * size <= |bytes|
      {
        FewerInts(field, count, size);
        var _ :- ReadArchiveInt(width, version);
      }
      r := Got((), offset);
    }
  }

  method ParsePostgresCustomDumpHeader(bytes: Bytes, decode: Bytes -> string) returns (r: Read<Header>)
    ensures r == HeaderOf(bytes, decode)
  {
    var cursor := new ByteCursor(bytes);
    var layout :- cursor.ReadLayout();
    var width: nat, version := layout.0.width, layout.0.Version();
    var database :- cursor.ReadDatabase(width, version);
    if version < V1_10 {
      return Rejected(NoServerVersion);
    }
    var engine :- cursor.ReadArchiveString(width, version);
    var dump :- cursor.ReadArchiveString(width, version);
    if engine.0.None? || MajorVersion(decode(engine.0.value)).None? {
      return Rejected(UnreadableServerVersion);
    }
    r := Got(Header(layout.0.major, layout.0.minor, layout.0.revision,
                    decode(engine.0.value), Text(dump.0, decode), Text(database.0, decode)), cursor.offset);
  }
}
