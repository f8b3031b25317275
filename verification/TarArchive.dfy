/** The uncompressed ustar archive the agent uploads into containers (agent/src/docker-api.ts), and a reader
    after "ustar Interchange Format" of the pax utility, IEEE Std 1003.1. */
module TarArchive {
  import opened Wrappers
  import opened ByteStrings

  const BLOCK_BYTES := 512
  const NAME_BYTES := 100
  const SLASH: byte := 0x2F
  const SPACE: byte := 0x20
  const ZERO: byte := 0x30
  const MAGIC: Bytes := [0x75, 0x73, 0x74, 0x61, 0x72, 0, ZERO, ZERO]    // ustar, NUL, version 00

  datatype File = File(path: Bytes, mode: nat, uid: nat, gid: nat, content: Bytes)

  function Repeat(b: byte, n: nat): (r: Bytes)
    ensures |r| == n && forall i :: 0 <= i < n ==> r[i] == b
  {
    seq(n, _ => b)
  }

  function Zeros(n: nat): Bytes { Repeat(0, n) }

  function WithoutLeadingSlashes(path: Bytes): Bytes {
    if path != [] && path[0] == SLASH then WithoutLeadingSlashes(path[1..]) else path
  }

  function Name(f: File): Bytes { WithoutLeadingSlashes(f.path) }

  function Sum(b: Bytes): nat {
    if b == [] then 0 else b[0] + Sum(b[1..])
  }

  function OctalDigits(v: nat): Bytes {
    if v < 8 then [ZERO + v] else OctalDigits(v / 8) + [ZERO + v % 8]
  }

  /** At least the given number of digits, with zeros in front. */
  function PaddedOctal(v: nat, digits: nat): Bytes {
    Repeat(ZERO, if |OctalDigits(v)| < digits then digits - |OctalDigits(v)| else 0) + OctalDigits(v)
  }

  /** A field is cut at its width: a number with too many digits loses its last ones and the NUL. */
  function OctalField(v: nat, width: nat): (field: Bytes)
    requires width > 0
    ensures |field| == width
  {
    (PaddedOctal(v, width - 1) + [0])[..width]
  }

  function ChecksumField(sum: nat): (field: Bytes)
    ensures |field| == 8
  {
    (PaddedOctal(sum, 6) + [0, SPACE])[..8]
  }

  function Padding(size: nat): nat { (BLOCK_BYTES - size % BLOCK_BYTES) % BLOCK_BYTES }

  /** The fields before the checksum. */
  function Front(f: File, mtime: nat): (b: Bytes)
    requires |Name(f)| <= NAME_BYTES
    ensures |b| == 148
  {
    Name(f) + Zeros(NAME_BYTES - |Name(f)|)
    + OctalField(f.mode, 8) + OctalField(f.uid, 8) + OctalField(f.gid, 8)
    + OctalField(|f.content|, 12) + OctalField(mtime, 12)
  }

  /** The fields behind: a regular file, no link, the magic. */
  function Back(): (b: Bytes)
    ensures |b| == 356
  {
    [ZERO] + Zeros(100) + MAGIC + Zeros(247)
  }

  /** The checksum counts its own field as spaces. */
  function Header(f: File, mtime: nat): (b: Bytes)
    requires |Name(f)| <= NAME_BYTES
    ensures |b| == BLOCK_BYTES
  {
    var sum := Sum(Front(f, mtime) + Repeat(SPACE, 8) + Back());
    Front(f, mtime) + ChecksumField(sum) + Back()
  }

  predicate NamesFit(files: seq<File>) {
    forall f :: f in files ==> |Name(f)| <= NAME_BYTES
  }

  function Block(f: File, mtime: nat): Bytes
    requires |Name(f)| <= NAME_BYTES
  {
    Header(f, mtime) + f.content + Zeros(Padding(|f.content|))
  }

  function Blocks(files: seq<File>, mtime: nat): Bytes
    requires NamesFit(files)
  {
    if files == [] then [] else Block(files[0], mtime) + Blocks(files[1..], mtime)
  }

  function Archive(files: seq<File>, mtime: nat): Bytes
    requires NamesFit(files)
  {
    Blocks(files, mtime) + Zeros(2 * BLOCK_BYTES)
  }

  // ----- Writing in place

  function Patched(b: Bytes, at: nat, part: Bytes): Bytes
    requires at + |part| <= |b|
  {
    b[..at] + part + b[at + |part|..]
  }

  method Write(header: array<byte>, at: nat, part: Bytes)
    requires at + |part| <= header.Length
    modifies header
    ensures header[..] == Patched(old(header[..]), at, part)
  {
    forall i | 0 <= i < |part| {
      header[at + i] := part[i];
    }
  }

  /** Writing behind what is written. */
  lemma PatchAppends(done: Bytes, part: Bytes, n: nat)
    requires |part| <= n
    ensures Patched(done + Zeros(n), |done|, part) == done + part + Zeros(n - |part|)
  {
  }

  /** Writes a number and leaves the rest of the header as it is. */
  method WriteTarOctal(header: array<byte>, at: nat, width: nat, v: nat)
    requires width > 0 && at + width <= header.Length
    modifies header
    ensures header[..] == Patched(old(header[..]), at, OctalField(v, width))
  {
    Write(header, at, OctalField(v, width));
  }

  method WriteFront(header: array<byte>, f: File, mtime: nat)
    requires header.Length == BLOCK_BYTES && header[..] == Zeros(BLOCK_BYTES) && |Name(f)| <= NAME_BYTES
    modifies header
    ensures header[..] == Front(f, mtime) + Zeros(364)
  {
    ghost var done := Name(f);
    Write(header, 0, Name(f));
    assert header[..] == done + Zeros(BLOCK_BYTES - |done|);
    done := done + Zeros(NAME_BYTES - |Name(f)|);
    assert header[..] == done + Zeros(412);
    WriteTarOctal(header, 100, 8, f.mode);
    PatchAppends(done, OctalField(f.mode, 8), 412);
    done := done + OctalField(f.mode, 8);
    WriteTarOctal(header, 108, 8, f.uid);
    PatchAppends(done, OctalField(f.uid, 8), 404);
    done := done + OctalField(f.uid, 8);
    WriteTarOctal(header, 116, 8, f.gid);
    PatchAppends(done, OctalField(f.gid, 8), 396);
    done := done + OctalField(f.gid, 8);
    WriteTarOctal(header, 124, 12, |f.content|);
    PatchAppends(done, OctalField(|f.content|, 12), 388);
    done := done + OctalField(|f.content|, 12);
    WriteTarOctal(header, 136, 12, mtime);
    PatchAppends(done, OctalField(mtime, 12), 376);
  }

  method WriteHeader(f: File, mtime: nat) returns (header: array<byte>)
    requires |Name(f)| <= NAME_BYTES
    ensures fresh(header) && header[..] == Header(f, mtime)
  {
    header := new byte[BLOCK_BYTES](_ => 0);
    assert header[..] == Zeros(BLOCK_BYTES);
    WriteFront(header, f, mtime);
    ghost var front := Front(f, mtime);
    Write(header, 156, [ZERO]);
    assert header[..] == front + Zeros(8) + [ZERO] + Zeros(355);
    Write(header, 257, MAGIC);
    assert header[..] == front + Zeros(8) + Back();
    Write(header, 148, Repeat(SPACE, 8));
    assert header[..] == front + Repeat(SPACE, 8) + Back();
    var checksum := Sum(header[..]);
    Write(header, 148, ChecksumField(checksum));
    assert header[..] == front + ChecksumField(checksum) + Back();
  }

  lemma {:induction false} BlocksOfMore(files: seq<File>, f: File, mtime: nat)
    requires NamesFit(files) && |Name(f)| <= NAME_BYTES
    ensures NamesFit(files + [f]) && Blocks(files + [f], mtime) == Blocks(files, mtime) + Block(f, mtime)
  {
    if files == [] {
      assert [f][1..] == [];
    } else {
      assert (files + [f])[1..] == files[1..] + [f];
      BlocksOfMore(files[1..], f, mtime);
      Associative(Block(files[0], mtime), Blocks(files[1..], mtime), Block(f, mtime));
    }
  }

  lemma Associative(x: Bytes, y: Bytes, z: Bytes)
    ensures x + (y + z) == x + y + z
  {
  }

  /** An archive of all the files, or none when a name is too long. */
  method BuildTarArchive(files: seq<File>, mtime: nat) returns (r: Reply<Bytes>)
    ensures r == if NamesFit(files) then Ok(Archive(files, mtime)) else Failed
  {
    var blocks: Bytes := [];
    for k := 0 to |files|
      invariant NamesFit(files[..k]) && blocks == Blocks(files[..k], mtime)
    {
      if |Name(files[k])| > NAME_BYTES {
        return Failed;
      }
      var header := WriteHeader(files[k], mtime);
      BlocksOfMore(files[..k], files[k], mtime);
      assert files[..k + 1] == files[..k] + [files[k]];
      blocks := blocks + (header[..] + files[k].content + Zeros(Padding(|files[k].content|)));
    }
    assert files[..|files|] == files;
    r := Ok(blocks + Zeros(2 * BLOCK_BYTES));
  }

  // ----- A reader

  datatype Entry = Entry(name: Bytes, mode: nat, uid: nat, gid: nat, mtime: nat, content: Bytes)

  // Offsets, characters and bounds are spelled out here, apart from what the writer names.

  predicate IsOctalDigit(b: byte) { 0x30 <= b <= 0x37 }

  /** The octal digits in front, after the value of those before them. */
  function ReadOctal(b: Bytes, value: nat): nat {
    if b == [] || !IsOctalDigit(b[0]) then value else ReadOctal(b[1..], 8 * value + (b[0] - 0x30))
  }

  /** Up to the first NUL. */
  function ReadName(b: Bytes): Bytes {
    if b == [] || b[0] == 0 then [] else [b[0]] + ReadName(b[1..])
  }

  /** The header of a regular file whose checksum is right. */
  predicate IsHeader(h: Bytes)
    requires |h| == 512
  {
    && ReadOctal(h[148..156], 0) == Sum(Patched(h, 148, Repeat(0x20, 8)))
    && h[156] == 0x30 && h[257..265] == [0x75, 0x73, 0x74, 0x61, 0x72, 0, 0x30, 0x30]
  }

  function EntryIn(h: Bytes, content: Bytes): Entry
    requires |h| == 512
  {
    Entry(ReadName(h[..100]), ReadOctal(h[100..108], 0), ReadOctal(h[108..116], 0),
          ReadOctal(h[116..124], 0), ReadOctal(h[136..148], 0), content)
  }

  /** A size rounded up to whole blocks. */
  function InBlocks(size: nat): nat { (size + 511) / 512 * 512 }

  predicate AllZero(b: Bytes) { forall i :: 0 <= i < |b| ==> b[i] == 0 }

  /** The entries up to a block of zeros. */
  function ReadArchive(b: Bytes): Option<seq<Entry>> {
    if |b| < 512 then None
    else if AllZero(b[..512]) then Some([])
    else
      var h := b[..512];
      var size := ReadOctal(h[124..136], 0);
      var end := 512 + InBlocks(size);
      if !IsHeader(h) || end > |b| then None
      else
        var rest := ReadArchive(b[end..]);
        if rest.None? then None else Some([EntryIn(h, b[512..512 + size])] + rest.value)
  }

  // ----- Reading back what was written

  function Power8(n: nat): nat {
    if n == 0 then 1 else 8 * Power8(n - 1)
  }

  lemma {:induction false} DigitsFit(v: nat, digits: nat)
    requires digits > 0 && v < Power8(digits)
    ensures |OctalDigits(v)| <= digits
  {
    if v >= 8 {
      assert Power8(digits) == 8 * Power8(digits - 1);
      assert digits > 1 by { assert Power8(0) == 1; }
      DigitsFit(v / 8, digits - 1);
    }
  }

  predicate AllOctal(b: Bytes) { forall i :: 0 <= i < |b| ==> IsOctalDigit(b[i]) }

  lemma {:induction false} ReadOctalInParts(x: Bytes, y: Bytes, value: nat)
    requires AllOctal(x)
    ensures ReadOctal(x + y, value) == ReadOctal(y, ReadOctal(x, value))
  {
    if x == [] {
      assert x + y == y;
    } else {
      assert (x + y)[1..] == x[1..] + y;
      ReadOctalInParts(x[1..], y, 8 * value + (x[0] - ZERO));
    }
  }

  lemma {:induction false} DigitsRead(v: nat)
    ensures AllOctal(OctalDigits(v)) && ReadOctal(OctalDigits(v), 0) == v
  {
    if v < 8 {
      assert OctalDigits(v)[1..] == [];
    } else {
      DigitsRead(v / 8);
      ReadOctalInParts(OctalDigits(v / 8), [ZERO + v % 8], 0);
      assert [ZERO + v % 8][1..] == [];
    }
  }

  lemma {:induction false} ZerosRead(n: nat)
    ensures ReadOctal(Repeat(ZERO, n), 0) == 0
  {
    if n > 0 {
      assert Repeat(ZERO, n)[1..] == Repeat(ZERO, n - 1);
      ZerosRead(n - 1);
    }
  }

  lemma PaddedRead(v: nat, digits: nat, rest: Bytes)
    requires digits > 0 && v < Power8(digits) && (rest != [] ==> !IsOctalDigit(rest[0]))
    ensures |PaddedOctal(v, digits)| == digits && ReadOctal(PaddedOctal(v, digits) + rest, 0) == v
  {
    DigitsFit(v, digits);
    DigitsRead(v);
    var zeros := Repeat(ZERO, digits - |OctalDigits(v)|);
    ZerosRead(|zeros|);
    ReadOctalInParts(zeros, OctalDigits(v), 0);
    ReadOctalInParts(PaddedOctal(v, digits), rest, 0);
  }

  lemma FieldRead(v: nat, width: nat)
    requires width > 1 && v < Power8(width - 1)
    ensures ReadOctal(OctalField(v, width), 0) == v
  {
    PaddedRead(v, width - 1, [0]);
    assert OctalField(v, width) == PaddedOctal(v, width - 1) + [0];
  }

  lemma {:induction false} SumBound(b: Bytes)
    ensures Sum(b) <= 255 * |b|
  {
    if b != [] {
      SumBound(b[1..]);
    }
  }

  /** The checksum of any header has at most six digits. */
  lemma ChecksumRead(b: Bytes)
    requires |b| == BLOCK_BYTES
    ensures |PaddedOctal(Sum(b), 6)| == 6 && ReadOctal(ChecksumField(Sum(b)), 0) == Sum(b)
  {
    SumBound(b);
    assert Power8(6) == 0x40000;
    PaddedRead(Sum(b), 6, [0, SPACE]);
    assert ChecksumField(Sum(b)) == PaddedOctal(Sum(b), 6) + [0, SPACE];
  }

  /** What the header has room for. */
  predicate Storable(f: File, mtime: nat) {
    && |Name(f)| <= 100 && 0 !in Name(f)
    && f.mode < Power8(7) && f.uid < Power8(7) && f.gid < Power8(7)
    && |f.content| < Power8(11) && mtime < Power8(11)
  }

  /** The name stored is the path without the slashes it begins with. */
  lemma NameIs(f: File) returns (slashes: nat)
    ensures slashes <= |f.path| && (forall i :: 0 <= i < slashes ==> f.path[i] == 0x2F)
    ensures Name(f) == f.path[slashes..] && (slashes < |f.path| ==> f.path[slashes] != 0x2F)
  {
    slashes := LeadingSlashes(f.path);
  }

  lemma {:induction false} LeadingSlashes(path: Bytes) returns (slashes: nat)
    ensures slashes <= |path| && (forall i :: 0 <= i < slashes ==> path[i] == 0x2F)
    ensures WithoutLeadingSlashes(path) == path[slashes..] && (slashes < |path| ==> path[slashes] != 0x2F)
    decreases |path|
  {
    slashes := 0;
    if path != [] && path[0] == SLASH {
      var rest := LeadingSlashes(path[1..]);
      slashes := rest + 1;
      assert path[1..][rest..] == path[slashes..];
      forall i | 0 < i < slashes ensures path[i] == 0x2F { assert path[i] == path[1..][i - 1]; }
    }
  }

  function EntryOf(f: File, mtime: nat): Entry {
    Entry(Name(f), f.mode, f.uid, f.gid, mtime, f.content)
  }

  lemma {:induction false} NameRead(name: Bytes, n: nat)
    requires 0 !in name
    ensures ReadName(name + Zeros(n)) == name
  {
    if name == [] {
      assert name + Zeros(n) == Zeros(n);
    } else {
      assert (name + Zeros(n))[1..] == name[1..] + Zeros(n);
      NameRead(name[1..], n);
    }
  }

  lemma FrontFields(f: File, mtime: nat)
    requires |Name(f)| <= NAME_BYTES
    ensures var front := Front(f, mtime);
            && front[..100] == Name(f) + Zeros(NAME_BYTES - |Name(f)|)
            && front[100..108] == OctalField(f.mode, 8) && front[108..116] == OctalField(f.uid, 8)
            && front[116..124] == OctalField(f.gid, 8) && front[124..136] == OctalField(|f.content|, 12)
            && front[136..148] == OctalField(mtime, 12)
  {
  }

  lemma HeaderFields(h: Bytes, front: Bytes, checksum: Bytes)
    requires |front| == 148 && |checksum| == 8 && h == front + checksum + Back()
    ensures forall i, j :: 0 <= i <= j <= 148 ==> h[i..j] == front[i..j]
    ensures h[148..156] == checksum && h[156] == ZERO && h[257..265] == MAGIC
    ensures Patched(h, 148, Repeat(SPACE, 8)) == front + Repeat(SPACE, 8) + Back()
  {
    assert h[257..265] == Back()[101..109] == MAGIC;
  }

  lemma HeaderRead(f: File, mtime: nat)
    requires Storable(f, mtime)
    ensures var h := Header(f, mtime);
            && !AllZero(h) && IsHeader(h) && ReadName(h[..100]) == Name(f)
            && ReadOctal(h[100..108], 0) == f.mode && ReadOctal(h[108..116], 0) == f.uid
            && ReadOctal(h[116..124], 0) == f.gid && ReadOctal(h[124..136], 0) == |f.content|
            && ReadOctal(h[136..148], 0) == mtime
  {
    var h, front := Header(f, mtime), Front(f, mtime);
    var summed := front + Repeat(SPACE, 8) + Back();
    HeaderFields(h, front, ChecksumField(Sum(summed)));
    ChecksumRead(summed);
    FrontFields(f, mtime);
    NameRead(Name(f), NAME_BYTES - |Name(f)|);
    FieldRead(f.mode, 8);
    FieldRead(f.uid, 8);
    FieldRead(f.gid, 8);
    FieldRead(|f.content|, 12);
    FieldRead(mtime, 12);
  }

  lemma BlockSlices(h: Bytes, content: Bytes, padding: Bytes, rest: Bytes)
    requires |h| == BLOCK_BYTES
    ensures var b := h + content + padding + rest;
            && b[..BLOCK_BYTES] == h && b[BLOCK_BYTES..BLOCK_BYTES + |content|] == content
            && b[BLOCK_BYTES + |content| + |padding|..] == rest
  {
  }

  lemma PaddedIsInBlocks(size: nat)
    ensures size + Padding(size) == InBlocks(size)
  {
  }

  /** One step of the reader. */
  lemma ReadOne(b: Bytes, size: nat, end: nat)
    requires 512 <= end <= |b| && !AllZero(b[..512]) && IsHeader(b[..512])
    requires size == ReadOctal(b[..512][124..136], 0) && end == 512 + InBlocks(size) && ReadArchive(b[end..]).Some?
    ensures ReadArchive(b) == Some([EntryIn(b[..512], b[512..512 + size])] + ReadArchive(b[end..]).value)
  {
  }

  lemma BlockRead(f: File, mtime: nat, rest: Bytes)
    requires Storable(f, mtime) && ReadArchive(rest).Some?
    ensures ReadArchive(Block(f, mtime) + rest) == Some([EntryOf(f, mtime)] + ReadArchive(rest).value)
  {
    HeaderRead(f, mtime);
    BlockSlices(Header(f, mtime), f.content, Zeros(Padding(|f.content|)), rest);
    PaddedIsInBlocks(|f.content|);
    ReadOne(Block(f, mtime) + rest, |f.content|, 512 + InBlocks(|f.content|));
  }

  predicate AllStorable(files: seq<File>, mtime: nat) {
    NamesFit(files) && forall f :: f in files ==> Storable(f, mtime)
  }

  function EntriesOf(files: seq<File>, mtime: nat): seq<Entry> {
    if files == [] then [] else [EntryOf(files[0], mtime)] + EntriesOf(files[1..], mtime)
  }

  lemma {:induction false} BlocksRead(files: seq<File>, mtime: nat, rest: Bytes)
    requires AllStorable(files, mtime) && ReadArchive(rest) == Some([])
    ensures ReadArchive(Blocks(files, mtime) + rest) == Some(EntriesOf(files, mtime))
  {
    if files == [] {
      assert Blocks(files, mtime) + rest == rest;
    } else {
      BlocksRead(files[1..], mtime, rest);
      BlockRead(files[0], mtime, Blocks(files[1..], mtime) + rest);
      Associative(Block(files[0], mtime), Blocks(files[1..], mtime), rest);
    }
  }

  lemma PaddingFills(size: nat)
    ensures (BLOCK_BYTES + size + Padding(size)) % BLOCK_BYTES == 0
  {
  }

  lemma BothWhole(m: nat, n: nat)
    requires m % BLOCK_BYTES == 0 && n % BLOCK_BYTES == 0
    ensures (m + n) % BLOCK_BYTES == 0
  {
    assert m + n == BLOCK_BYTES * (m / BLOCK_BYTES + n / BLOCK_BYTES);
  }

  lemma {:induction false} BlocksAreWhole(files: seq<File>, mtime: nat)
    requires NamesFit(files)
    ensures |Blocks(files, mtime)| % BLOCK_BYTES == 0
  {
    if files != [] {
      BlocksAreWhole(files[1..], mtime);
      PaddingFills(|files[0].content|);
      BothWhole(|Block(files[0], mtime)|, |Blocks(files[1..], mtime)|);
    }
  }

  lemma EndRead()
    ensures ReadArchive(Zeros(2 * BLOCK_BYTES)) == Some([])
  {
    assert AllZero(Zeros(2 * BLOCK_BYTES)[..BLOCK_BYTES]);
  }

  /** The reader finds the files, in order, with names, modes, owners, time and contents. */
  lemma ArchiveRead(files: seq<File>, mtime: nat)
    requires AllStorable(files, mtime)
    ensures ReadArchive(Archive(files, mtime)) == Some(EntriesOf(files, mtime))
  {
    EndRead();
    BlocksRead(files, mtime, Zeros(2 * BLOCK_BYTES));
  }

  lemma ArchiveIsWhole(files: seq<File>, mtime: nat)
    requires NamesFit(files)
    ensures |Archive(files, mtime)| % BLOCK_BYTES == 0
  {
    BlocksAreWhole(files, mtime);
  }
}
