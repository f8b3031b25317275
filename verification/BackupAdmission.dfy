/** Whether a customer's backup may be restored into a running engine
    (packages/runtime/src/external-backup-import.ts): integrity, the header in its first bytes, and the versions. */
module BackupAdmission {
  import opened Wrappers
  import opened ByteStrings
  import PgDump = PgDumpHeader

  // ----- The header of a Redis snapshot

  const RDB_MAGIC: Bytes := [0x52, 0x45, 0x44, 0x49, 0x53]    // REDIS
  const RDB_MAGIC_LENGTH := |RDB_MAGIC| + 4
  const ZERO: byte := 0x30

  datatype Category = IntegrityMismatch | FormatUnreadable | FormatMismatch | EngineVersionIncompatible

  datatype RdbHeader = RdbHeader(version: nat) | RdbRejected(category: Category)

  /** The signature and the version in four digits. */
  function WriteRdb(version: nat): Bytes
    requires version <= 9999
  {
    [0x52, 0x45, 0x44, 0x49, 0x53]
    + [0x30 + version / 1000, 0x30 + version / 100 % 10, 0x30 + version / 10 % 10, 0x30 + version % 10]
  }

  ghost predicate IsRdb(b: Bytes, version: nat) {
    1 <= version <= 9999 && At(b, 0, WriteRdb(version))
  }

  predicate AllDigits(b: Bytes) { forall i :: 0 <= i < |b| ==> ZERO <= b[i] <= ZERO + 9 }

  function DigitsValue(b: Bytes): int {
    if b == [] then 0 else DigitsValue(b[..|b| - 1]) * 10 + (b[|b| - 1] - ZERO)
  }

  lemma {:induction false} DigitsValueIsNat(b: Bytes)
    requires AllDigits(b)
    ensures DigitsValue(b) >= 0
  {
    if b != [] {
      DigitsValueIsNat(b[..|b| - 1]);
    }
  }

  function RdbHeaderOf(b: Bytes): RdbHeader {
    if |b| < RDB_MAGIC_LENGTH then RdbRejected(FormatUnreadable)
    else if b[..|RDB_MAGIC|] != RDB_MAGIC then RdbRejected(FormatMismatch)
    else
      var digits := b[|RDB_MAGIC|..RDB_MAGIC_LENGTH];
      if AllDigits(digits) && DigitsValue(digits) >= 1 then RdbHeader(DigitsValue(digits))
      else RdbRejected(FormatUnreadable)
  }

  method ParseRedisRdbHeader(b: Bytes) returns (r: RdbHeader)
    ensures r == RdbHeaderOf(b)
  {
    if |b| < RDB_MAGIC_LENGTH {
      return RdbRejected(FormatUnreadable);
    }
    for index := 0 to |RDB_MAGIC|
      invariant b[..index] == RDB_MAGIC[..index]
    {
      if b[index] != RDB_MAGIC[index] {
        assert b[..|RDB_MAGIC|][index] != RDB_MAGIC[index];
        return RdbRejected(FormatMismatch);
      }
    }
    ghost var digits := b[|RDB_MAGIC|..RDB_MAGIC_LENGTH];
    var version := 0;
    for index := |RDB_MAGIC| to RDB_MAGIC_LENGTH
      invariant AllDigits(digits[..index - |RDB_MAGIC|]) && version == DigitsValue(digits[..index - |RDB_MAGIC|])
    {
      var digit: int := b[index];
      if digit < ZERO || digit > ZERO + 9 {
        assert digits[index - |RDB_MAGIC|] == digit;
        return RdbRejected(FormatUnreadable);
      }
      var done := digits[..index - |RDB_MAGIC|];
      assert digits[..index - |RDB_MAGIC| + 1] == done + [b[index]] && (done + [b[index]])[..|done|] == done;
      version := version * 10 + (digit - ZERO);
    }
    assert digits[..4] == digits;
    if version < 1 {
      return RdbRejected(FormatUnreadable);
    }
    return RdbHeader(version);
  }

  lemma FourDigits(b: Bytes)
    requires |b| == 4 && AllDigits(b)
    ensures DigitsValue(b) == (((b[0] - ZERO) * 10 + (b[1] - ZERO)) * 10 + (b[2] - ZERO)) * 10 + (b[3] - ZERO)
  {
    var b1, b2, b3 := b[..1], b[..2], b[..3];
    assert b3[..2] == b2 && b2[..1] == b1 && b1[..0] == [];
    assert DigitsValue(b1) == b[0] - ZERO;
    assert DigitsValue(b2) == (b[0] - ZERO) * 10 + (b[1] - ZERO);
    assert DigitsValue(b3) == ((b[0] - ZERO) * 10 + (b[1] - ZERO)) * 10 + (b[2] - ZERO);
  }

  lemma FourDecimals(d0: int, d1: int, d2: int, d3: int, v: int)
    requires 0 <= d0 <= 9 && 0 <= d1 <= 9 && 0 <= d2 <= 9 && 0 <= d3 <= 9
    ensures ((d0 * 10 + d1) * 10 + d2) * 10 + d3 == v <==>
            d0 == v / 1000 && d1 == v / 100 % 10 && d2 == v / 10 % 10 && d3 == v % 10
  {
    if ((d0 * 10 + d1) * 10 + d2) * 10 + d3 == v {
      assert v / 10 == (d0 * 10 + d1) * 10 + d2;
      assert v / 100 == d0 * 10 + d1;
    }
  }

  /** The bytes name a version exactly when they start with what a writer of that version puts there. */
  lemma RdbHeaderIff(b: Bytes, version: nat)
    ensures RdbHeaderOf(b) == RdbHeader(version) <==> IsRdb(b, version)
  {
    if |b| >= RDB_MAGIC_LENGTH && b[..|RDB_MAGIC|] == RDB_MAGIC {
      var digits: Bytes := b[|RDB_MAGIC|..RDB_MAGIC_LENGTH];
      assert b[..RDB_MAGIC_LENGTH] == RDB_MAGIC + digits;
      if AllDigits(digits) {
        FourDigits(digits);
        FourDecimals(digits[0] - ZERO, digits[1] - ZERO, digits[2] - ZERO, digits[3] - ZERO, version);
      }
    }
  }

  // ----- Admission

  datatype Variant = Postgres | Redis

  datatype Format = PostgresCustomDump | RedisRdb

  /** What the customer registered, and what the agent observed of the upload. */
  datatype Declared = Declared(format: Format, sha256: string, sizeBytes: int)

  datatype Observed = Observed(sha256: string, sizeBytes: int, headerSample: Bytes)

  datatype Destination = Destination(variant: Variant, version: string)

  datatype Verification = Verified | Rejected(category: Category)

  const MAX_SAFE_INTEGER := 0x1F_FFFF_FFFF_FFFF

  predicate IsSha256Digest(s: string) {
    |s| == 64 && forall i :: 0 <= i < 64 ==> '0' <= s[i] <= '9' || 'a' <= s[i] <= 'f'
  }

  predicate Integrity(declared: Declared, observed: Observed) {
    && IsSha256Digest(declared.sha256) && observed.sha256 == declared.sha256
    && 0 < observed.sizeBytes <= MAX_SAFE_INTEGER && observed.sizeBytes == declared.sizeBytes
  }

  function VariantOf(format: Format): Variant {
    match format
    case PostgresCustomDump => Postgres
    case RedisRdb => Redis
  }

  function CategoryOf(why: PgDump.Reason): Category {
    match why
    case NotPgDump => FormatMismatch
    case NotCustom => FormatMismatch
    case TooNew => EngineVersionIncompatible
    case _ => FormatUnreadable
  }

  function WithoutSpacesBehind(s: string): string {
    if s != "" && PgDump.IsSpace(s[|s| - 1]) then WithoutSpacesBehind(s[..|s| - 1]) else s
  }

  /** The newest snapshot format each supported Redis can load. */
  function MaxReadableRdbVersion(version: string): Option<nat> {
    match WithoutSpacesBehind(PgDump.SkipSpaces(version))
    case "7.0" => Some(10)
    case "7.2" => Some(11)
    case "7.4" => Some(12)
    case _ => None
  }

  function VerifyPostgres(sample: Bytes, destination: string, decode: Bytes -> string): Verification {
    match PgDump.HeaderOf(sample, decode)
    case Rejected(why) => Rejected(CategoryOf(why))
    case Got(header, _) =>
      var source, target := PgDump.MajorVersion(header.engine), PgDump.MajorVersion(destination);
      if source.None? then Rejected(FormatUnreadable)
      else if target.None? || source.value > target.value then Rejected(EngineVersionIncompatible)
      else Verified
  }

  function VerifyRedis(sample: Bytes, destination: string): Verification {
    match RdbHeaderOf(sample)
    case RdbRejected(category) => Rejected(category)
    case RdbHeader(version) =>
      var max := MaxReadableRdbVersion(destination);
      if max.None? || version > max.value then Rejected(EngineVersionIncompatible) else Verified
  }

  /** verifyExternalBackupArtifact. */
  function Verify(declared: Declared, observed: Observed, destination: Destination, decode: Bytes -> string): Verification {
    if !Integrity(declared, observed) then Rejected(IntegrityMismatch)
    else if VariantOf(declared.format) != destination.variant then Rejected(FormatMismatch)
    else
      match declared.format
      case PostgresCustomDump => VerifyPostgres(observed.headerSample, destination.version, decode)
      case RedisRdb => VerifyRedis(observed.headerSample, destination.version)
  }

  // ----- The laws, in their own terms

  /** The upload is the one registered: the same SHA-256, in 64 lower-case hexadecimal digits, and the same
      positive number of bytes, exact as a double. */
  ghost predicate SameArtifact(declared: Declared, observed: Observed) {
    && |declared.sha256| == 64 && (forall c :: c in declared.sha256 ==> c in "0123456789abcdef")
    && observed.sha256 == declared.sha256
    && 1 <= observed.sizeBytes < 0x20_0000_0000_0000 && observed.sizeBytes == declared.sizeBytes
  }

  lemma SameArtifactIs(declared: Declared, observed: Observed)
    ensures Integrity(declared, observed) <==> SameArtifact(declared, observed)
  {
    forall c: char ensures '0' <= c <= '9' || 'a' <= c <= 'f' <==> c in "0123456789abcdef" {
      if '0' <= c <= '9' { assert "0123456789abcdef"[c as int - 48] == c; }
      if 'a' <= c <= 'f' { assert "0123456789abcdef"[c as int - 87] == c; }
    }
    assert forall i :: 0 <= i < |declared.sha256| ==> declared.sha256[i] in declared.sha256;
  }

  /** Redis 7.0, 7.2 and 7.4 load snapshots up to version 10, 11 and 12. */
  ghost predicate Loads(destination: string, version: int) {
    exists a, name, z :: PgDump.Blank(a) && PgDump.Blank(z) && destination == a + name + z &&
      ((name == "7.0" && version <= 10) || (name == "7.2" && version <= 11) || (name == "7.4" && version <= 12))
  }

  lemma {:induction false} TrimmedBehind(s: string, z: string)
    requires PgDump.AllSpaces(z) && s != "" && !PgDump.IsSpace(s[|s| - 1])
    ensures WithoutSpacesBehind(s + z) == s
  {
    if z == "" {
      assert s + z == s;
    } else {
      assert (s + z)[..|s + z| - 1] == s + z[..|z| - 1];
      TrimmedBehind(s, z[..|z| - 1]);
    }
  }

  lemma {:induction false} SplitsBehind(s: string) returns (z: string)
    ensures PgDump.AllSpaces(z) && s == WithoutSpacesBehind(s) + z
  {
    z := "";
    if s != "" && PgDump.IsSpace(s[|s| - 1]) {
      var rest := SplitsBehind(s[..|s| - 1]);
      z := rest + [s[|s| - 1]];
    }
  }

  lemma BlankIs(s: string)
    ensures PgDump.Blank(s) <==> PgDump.AllSpaces(s)
  {
    forall c ensures PgDump.IsSpace(c) <==> c as int in PgDump.SPACES { PgDump.CharactersAre(c); }
  }

  lemma TrimmedIs(a: string, name: string, z: string)
    requires PgDump.Blank(a) && PgDump.Blank(z) && name in ["7.0", "7.2", "7.4"]
    ensures WithoutSpacesBehind(PgDump.SkipSpaces(a + name + z)) == name
  {
    BlankIs(a);
    BlankIs(z);
    assert a + name + z == a + (name + z);
    assert !PgDump.IsSpace('7') && !PgDump.IsSpace('0') && !PgDump.IsSpace('2') && !PgDump.IsSpace('4');
    PgDump.SpacesSkipped(a, name + z);
    TrimmedBehind(name, z);
  }

  lemma LoadsIs(destination: string, version: nat)
    ensures Loads(destination, version) <==>
              MaxReadableRdbVersion(destination).Some? && version <= MaxReadableRdbVersion(destination).value
  {
    if MaxReadableRdbVersion(destination).Some? {
      var a := PgDump.SkipSpacesSplits(destination);
      var z := SplitsBehind(PgDump.SkipSpaces(destination));
      BlankIs(a);
      BlankIs(z);
      var name := WithoutSpacesBehind(PgDump.SkipSpaces(destination));
      assert destination == a + name + z;
    }
    if Loads(destination, version) {
      var a, name, z :| PgDump.Blank(a) && PgDump.Blank(z) && destination == a + name + z &&
        ((name == "7.0" && version <= 10) || (name == "7.2" && version <= 11) || (name == "7.4" && version <= 12));
      TrimmedIs(a, name, z);
    }
  }

  /** An archive whose header fits the sample is admitted exactly when it is the one registered, states a
      readable server version, and the destination is a Postgres at least as new. */
  lemma PostgresAdmittedIff(f: PgDump.Fields, rest: Bytes, declared: Declared, observed: Observed,
                            destination: Destination, decode: Bytes -> string)
    requires PgDump.Writable(f) && |PgDump.Write(f)| <= 8192
    requires declared.format.PostgresCustomDump? && observed.headerSample == PgDump.SampleOf(PgDump.Write(f) + rest)
    ensures Verify(declared, observed, destination, decode) == Verified <==>
            && SameArtifact(declared, observed) && destination.variant.Postgres?
            && f.engine.Some?
            && var source, target := PgDump.MajorVersion(decode(f.engine.value)), PgDump.MajorVersion(destination.version);
            source.Some? && target.Some? && source.value <= target.value
  {
    PgDump.SampleDecides(f, rest, decode);
    PgDump.HeaderReads(f, [], decode);
    assert PgDump.Write(f) + [] == PgDump.Write(f);
    SameArtifactIs(declared, observed);
  }

  /** A snapshot is admitted exactly when it is the one registered, and names a version that the destination,
      a Redis known here, can load. */
  lemma RedisAdmittedIff(declared: Declared, observed: Observed, destination: Destination, decode: Bytes -> string)
    requires declared.format.RedisRdb?
    ensures Verify(declared, observed, destination, decode) == Verified <==>
            && SameArtifact(declared, observed) && destination.variant.Redis?
            && exists version: nat :: IsRdb(observed.headerSample, version) && Loads(destination.version, version)
  {
    SameArtifactIs(declared, observed);
    forall version: nat
      ensures RdbHeaderOf(observed.headerSample) == RdbHeader(version) <==> IsRdb(observed.headerSample, version)
      ensures Loads(destination.version, version) <==>
                MaxReadableRdbVersion(destination.version).Some? &&
                version <= MaxReadableRdbVersion(destination.version).value
    {
      RdbHeaderIff(observed.headerSample, version);
      LoadsIs(destination.version, version);
    }
  }

  /** Why an artifact is refused: first that it is another one than was registered, then that it is for another
      engine, then what its header says, then that the destination is older or unknown. */
  lemma RefusedBecause(declared: Declared, observed: Observed, destination: Destination, decode: Bytes -> string)
    ensures var v := Verify(declared, observed, destination, decode);
            if !SameArtifact(declared, observed) then v == Rejected(IntegrityMismatch)
            else if declared.format.PostgresCustomDump? != destination.variant.Postgres? then v == Rejected(FormatMismatch)
            else if declared.format.PostgresCustomDump? then
              match PgDump.HeaderOf(observed.headerSample, decode)
              case Rejected(why) =>
                v == Rejected(if why.NotPgDump? || why.NotCustom? then FormatMismatch
                              else if why.TooNew? then EngineVersionIncompatible else FormatUnreadable)
              case Got(_, _) => v == Verified || v == Rejected(EngineVersionIncompatible)
            else
              match RdbHeaderOf(observed.headerSample)
              case RdbRejected(category) => v == Rejected(category)
              case RdbHeader(_) => v == Verified || v == Rejected(EngineVersionIncompatible)
  {
    SameArtifactIs(declared, observed);
    if PgDump.HeaderOf(observed.headerSample, decode).Got? { PgDump.ParsedIsReadable(observed.headerSample, decode); }
  }

  /** Fewer than nine bytes or no version in digits cannot be read; another signature is another format. */
  lemma RdbRefusedBecause(b: Bytes)
    ensures |b| < 9 ==> RdbHeaderOf(b) == RdbRejected(FormatUnreadable)
    ensures |b| >= 9 ==>
              if b[..5] != [0x52, 0x45, 0x44, 0x49, 0x53] then RdbHeaderOf(b) == RdbRejected(FormatMismatch)
              else RdbHeaderOf(b) == RdbRejected(FormatUnreadable) || exists version :: IsRdb(b, version)
  {
    if RdbHeaderOf(b).RdbHeader? { RdbHeaderIff(b, RdbHeaderOf(b).version); }
  }

  /** Sampling more of the file changes no verdict but that of a Postgres sample that ends inside the header. */
  lemma LongerSampleAgrees(declared: Declared, observed: Observed, more: Bytes, destination: Destination,
                           decode: Bytes -> string)
    requires |observed.headerSample| >= 9
    requires declared.format.PostgresCustomDump? ==>
               PgDump.HeaderOf(observed.headerSample, decode) != PgDump.Rejected(PgDump.EndsEarly)
    ensures Verify(declared, observed.(headerSample := observed.headerSample + more), destination, decode)
            == Verify(declared, observed, destination, decode)
  {
    var sample := observed.headerSample;
    PgDump.HeaderStable(sample, more, decode);
    assert (sample + more)[..|RDB_MAGIC|] == sample[..|RDB_MAGIC|];
    assert (sample + more)[|RDB_MAGIC|..RDB_MAGIC_LENGTH] == sample[|RDB_MAGIC|..RDB_MAGIC_LENGTH];
  }
}
