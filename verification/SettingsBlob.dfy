/** The persisted settings layouts, their validation and their migration (main/settings_blob.h). */
module SettingsBlob {
  import opened Config
  import opened Numbers

  type byte = b: int | 0 <= b < 256

  /** One value per speed profile. */
  datatype Triple = Triple(slow: int, normal: int, fast: int) {
    function At(i: nat): int
      requires i < NUM_PROFILES
    {
      if i == 0 then slow else if i == 1 then normal else fast
    }
    function With(i: nat, v: int): Triple
      requires i < NUM_PROFILES
    {
      if i == 0 then this.(slow := v) else if i == 1 then this.(normal := v) else this.(fast := v)
    }
    ghost predicate In(lo: int, hi: int) {
      lo <= slow <= hi && lo <= normal <= hi && lo <= fast <= hi
    }
  }

  datatype V1 = V1(
    version: int, runCurrentMa: int, rawUp: int, rawDown: int, upOffset: int, downOffset: int,
    workZone: int, counter: int, trips: Triple, activeProfile: int, calibrated: int)

  datatype Lifetime = Lifetime(
    totalCycleTimeMs: int, longestCycleMs: int, stallCount: int, calibrationCount: int, otaCount: int,
    resetCount: int)

  /** Each version appends to the one before, which keeps its offsets. */
  datatype V2 = V2(v1: V1, health: Lifetime)
  datatype V3 = V3(v2: V2, lifetimeCycles: int)
  datatype V4 = V4(v3: V3, speeds: Triple, sgCalCurrentMa: int, reserved: int)

  // ---------------------------------------------------------------------------
  //  Bytes: little-endian, no padding
  // ---------------------------------------------------------------------------

  function U16At(d: seq<byte>, o: nat): int
    requires o + 2 <= |d|
  {
    d[o] as int + 256 * (d[o + 1] as int)
  }

  function U32At(d: seq<byte>, o: nat): int
    requires o + 4 <= |d|
  {
    U16At(d, o) + 0x1_0000 * U16At(d, o + 2)
  }

  /** Two's complement. */
  function I32At(d: seq<byte>, o: nat): int
    requires o + 4 <= |d|
  {
    var u := U32At(d, o);
    if u > I32_MAX then u - U32 else u
  }

  function ReadV1(d: seq<byte>): V1
    requires |d| >= 36
  {
    V1(U16At(d, 0), U16At(d, 2), I32At(d, 4), I32At(d, 8), I32At(d, 12), I32At(d, 16), I32At(d, 20), I32At(d, 24),
       Triple(U16At(d, 28), U16At(d, 30), U16At(d, 32)), d[34], d[35])
  }

  function ReadV2(d: seq<byte>): V2
    requires |d| >= 52
  {
    V2(ReadV1(d),
       Lifetime(U32At(d, 36), U32At(d, 40), U16At(d, 44), U16At(d, 46), U16At(d, 48), U16At(d, 50)))
  }

  function ReadV3(d: seq<byte>): V3
    requires |d| >= 56
  {
    V3(ReadV2(d), U32At(d, 52))
  }

  function ReadV4(d: seq<byte>): V4
    requires |d| >= 72
  {
    V4(ReadV3(d), Triple(U32At(d, 56), U32At(d, 60), U32At(d, 64)), U16At(d, 68), U16At(d, 70))
  }

  /** The `i`th byte of a little-endian number. */
  function Octet(x: int, i: nat): byte
    decreases i
  {
    if i == 0 then x % 256 else Octet(x / 256, i - 1)
  }

  function ByteV1(p: V1, i: nat): byte {
    if i < 2 then Octet(p.version, i)
    else if i < 4 then Octet(p.runCurrentMa, i - 2)
    else if i < 8 then Octet(p.rawUp, i - 4)
    else if i < 12 then Octet(p.rawDown, i - 8)
    else if i < 16 then Octet(p.upOffset, i - 12)
    else if i < 20 then Octet(p.downOffset, i - 16)
    else if i < 24 then Octet(p.workZone, i - 20)
    else if i < 28 then Octet(p.counter, i - 24)
    else if i < 30 then Octet(p.trips.slow, i - 28)
    else if i < 32 then Octet(p.trips.normal, i - 30)
    else if i < 34 then Octet(p.trips.fast, i - 32)
    else if i < 35 then Octet(p.activeProfile, 0)
    else Octet(p.calibrated, 0)
  }

  function ByteV3(p: V3, i: nat): byte {
    var h := p.v2.health;
    if i < 36 then ByteV1(p.v2.v1, i)
    else if i < 40 then Octet(h.totalCycleTimeMs, i - 36)
    else if i < 44 then Octet(h.longestCycleMs, i - 40)
    else if i < 46 then Octet(h.stallCount, i - 44)
    else if i < 48 then Octet(h.calibrationCount, i - 46)
    else if i < 50 then Octet(h.otaCount, i - 48)
    else if i < 52 then Octet(h.resetCount, i - 50)
    else Octet(p.lifetimeCycles, i - 52)
  }

  function ByteV4(p: V4, i: nat): byte {
    if i < 56 then ByteV3(p.v3, i)
    else if i < 60 then Octet(p.speeds.slow, i - 56)
    else if i < 64 then Octet(p.speeds.normal, i - 60)
    else if i < 68 then Octet(p.speeds.fast, i - 64)
    else if i < 70 then Octet(p.sgCalCurrentMa, i - 68)
    else Octet(p.reserved, i - 70)
  }

  /** The memory image of the current layout. */
  function Image(p: V4): (d: seq<byte>)
    ensures |d| == 72
  {
    seq(72, i requires 0 <= i < 72 => ByteV4(p, i))
  }

  predicate IsU16(x: int) {
    0 <= x < U16
  }

  predicate IsU32(x: int) {
    0 <= x < U32
  }

  predicate IsI32(x: int) {
    I32_MIN <= x <= I32_MAX
  }

  predicate IsU8(x: int) {
    0 <= x < 256
  }

  /** Every field fits the width it has on flash. */
  ghost predicate FitsV1(p: V1) {
    && IsU16(p.version) && IsU16(p.runCurrentMa) && IsI32(p.rawUp) && IsI32(p.rawDown)
    && IsI32(p.upOffset) && IsI32(p.downOffset) && IsI32(p.workZone) && IsI32(p.counter)
    && IsU16(p.trips.slow) && IsU16(p.trips.normal) && IsU16(p.trips.fast)
    && IsU8(p.activeProfile) && IsU8(p.calibrated)
  }

  ghost predicate FitsHealth(h: Lifetime, lifetimeCycles: int) {
    && IsU32(h.totalCycleTimeMs) && IsU32(h.longestCycleMs) && IsU16(h.stallCount)
    && IsU16(h.calibrationCount) && IsU16(h.otaCount) && IsU16(h.resetCount) && IsU32(lifetimeCycles)
  }

  ghost predicate FitsV4(p: V4) {
    && FitsV1(p.v3.v2.v1) && FitsHealth(p.v3.v2.health, p.v3.lifetimeCycles)
    && IsU32(p.speeds.slow) && IsU32(p.speeds.normal) && IsU32(p.speeds.fast)
    && IsU16(p.sgCalCurrentMa) && IsU16(p.reserved)
  }

  lemma ReadU16(d: seq<byte>, o: nat, x: int)
    requires IsU16(x) && o + 2 <= |d| && d[o] == Octet(x, 0) && d[o + 1] == Octet(x, 1)
    ensures U16At(d, o) == x
  {
  }

  lemma Digits(x: int)
    requires IsU32(x)
    ensures Octet(x, 0) as int + 256 * (Octet(x, 1) as int)
            + 0x1_0000 * (Octet(x, 2) as int + 256 * (Octet(x, 3) as int)) == x
  {
    hide Octet;
    var q := x / 256;
    var r := q / 256;
    Quotient(x, 0x100_0000);
    Quotient(q, 0x1_0000);
    Quotient(r, 256);
    OctetNext(x, 0);
    OctetNext(x, 1);
    OctetNext(x, 2);
    OctetNext(q, 0);
    OctetNext(q, 1);
    OctetNext(r, 0);
    OctetNext(r / 256, 0);
  }

  lemma OctetNext(x: int, i: nat)
    ensures Octet(x, i + 1) == Octet(x / 256, i) && Octet(x, 0) == x % 256
  {
  }

  lemma Quotient(x: int, bound: nat)
    requires 0 <= x < 256 * bound
    ensures x == 256 * (x / 256) + x % 256 && 0 <= x / 256 < bound
  {
  }

  lemma ReadU32(d: seq<byte>, o: nat, x: int)
    requires IsU32(x) && o + 4 <= |d|
    requires d[o] == Octet(x, 0) && d[o + 1] == Octet(x, 1) && d[o + 2] == Octet(x, 2) && d[o + 3] == Octet(x, 3)
    ensures U32At(d, o) == x
  {
    hide Octet;
    Digits(x);
  }

  /** A multiple of 2^32 more leaves the low four octets alone. */
  lemma {:induction false} SameOctets(x: int, i: nat)
    requires i < 4
    ensures Octet(x + U32, i) == Octet(x, i)
  {
    var q := x / 256;
    var r := q / 256;
    var t := r / 256;
    Above(x, 0x100_0000);
    Above(q, 0x1_0000);
    Above(r, 256);
    if i == 1 {
      assert Octet(x + U32, 1) == Octet(q + 0x100_0000, 0);
    } else if i == 2 {
      assert Octet(x + U32, 2) == Octet(q + 0x100_0000, 1) == Octet(r + 0x1_0000, 0);
      assert Octet(x, 2) == Octet(q, 1) == Octet(r, 0);
    } else if i == 3 {
      assert Octet(x + U32, 3) == Octet(q + 0x100_0000, 2) == Octet(r + 0x1_0000, 1) == Octet(t + 256, 0);
      assert Octet(x, 3) == Octet(q, 2) == Octet(r, 1) == Octet(t, 0);
    }
  }

  lemma Above(x: int, m: int)
    ensures (x + 256 * m) / 256 == x / 256 + m && (x + 256 * m) % 256 == x % 256
  {
  }

  lemma {:induction false} ReadI32(d: seq<byte>, o: nat, x: int)
    requires IsI32(x) && o + 4 <= |d|
    requires d[o] == Octet(x, 0) && d[o + 1] == Octet(x, 1) && d[o + 2] == Octet(x, 2) && d[o + 3] == Octet(x, 3)
    ensures I32At(d, o) == x
  {
    hide Octet;
    if x >= 0 {
      ReadU32(d, o, x);
    } else {
      SameOctets(x, 0);
      SameOctets(x, 1);
      SameOctets(x, 2);
      SameOctets(x, 3);
      ReadU32(d, o, x + U32);
    }
  }

  lemma ImageV1(p: V1, d: seq<byte>)
    requires FitsV1(p) && |d| >= 36 && forall i :: 0 <= i < 36 ==> d[i] == ByteV1(p, i)
    ensures ReadV1(d) == p
  {
    hide Octet, U16At, I32At;
    ReadU16(d, 0, p.version);
    ReadU16(d, 2, p.runCurrentMa);
    ReadI32(d, 4, p.rawUp);
    ReadI32(d, 8, p.rawDown);
    ReadI32(d, 12, p.upOffset);
    ReadI32(d, 16, p.downOffset);
    ReadI32(d, 20, p.workZone);
    ReadI32(d, 24, p.counter);
    ReadU16(d, 28, p.trips.slow);
    ReadU16(d, 30, p.trips.normal);
    ReadU16(d, 32, p.trips.fast);
    ReadU8(p.activeProfile);
    ReadU8(p.calibrated);
    assert d[34] == ByteV1(p, 34) && d[35] == ByteV1(p, 35);
  }

  lemma ReadU8(x: int)
    requires IsU8(x)
    ensures Octet(x, 0) == x
  {
  }

  lemma {:induction false} ImageV3(p: V3, d: seq<byte>)
    requires FitsV1(p.v2.v1) && FitsHealth(p.v2.health, p.lifetimeCycles)
    requires |d| >= 56 && forall i :: 0 <= i < 56 ==> d[i] == ByteV3(p, i)
    ensures ReadV3(d) == p
  {
    hide Octet, U16At, U32At, ByteV1, FitsV1, ReadV1;
    var h := p.v2.health;
    forall i | 0 <= i < 36
      ensures d[i] == ByteV1(p.v2.v1, i)
    {
      assert d[i] == ByteV3(p, i);
    }
    ImageV1(p.v2.v1, d);
    ReadU32(d, 36, h.totalCycleTimeMs);
    ReadU32(d, 40, h.longestCycleMs);
    ReadU16(d, 44, h.stallCount);
    ReadU16(d, 46, h.calibrationCount);
    ReadU16(d, 48, h.otaCount);
    ReadU16(d, 50, h.resetCount);
    ReadU32(d, 52, p.lifetimeCycles);
  }

  /** Reading back what was written gives every field its value again. */
  lemma {:induction false} ImageRead(p: V4)
    requires FitsV4(p)
    ensures ReadV4(Image(p)) == p
  {
    hide Octet, U16At, U32At, ByteV3, FitsV1, FitsHealth, ReadV3;
    var d := Image(p);
    forall i | 0 <= i < 56
      ensures d[i] == ByteV3(p.v3, i)
    {
      assert d[i] == ByteV4(p, i);
    }
    ImageV3(p.v3, d);
    ReadU32(d, 56, p.speeds.slow);
    ReadU32(d, 60, p.speeds.normal);
    ReadU32(d, 64, p.speeds.fast);
    ReadU16(d, 68, p.sgCalCurrentMa);
    ReadU16(d, 70, p.reserved);
  }

  // ---------------------------------------------------------------------------
  //  Validation, one version at a time
  // ---------------------------------------------------------------------------

  predicate ValidateV1(p: V1) {
    && RUN_CURRENT_MIN <= p.runCurrentMa <= RUN_CURRENT_MAX
    && SG_WORK_ZONE_MIN <= p.workZone <= SG_WORK_ZONE_MAX
    && p.activeProfile < NUM_PROFILES
    && (RUN_SG_TRIP_MIN <= p.trips.slow <= RUN_SG_TRIP_MAX)
    && (RUN_SG_TRIP_MIN <= p.trips.normal <= RUN_SG_TRIP_MAX)
    && (RUN_SG_TRIP_MIN <= p.trips.fast <= RUN_SG_TRIP_MAX)
    && OFFSET_MIN <= p.upOffset <= OFFSET_MAX
    && OFFSET_MIN <= p.downOffset <= OFFSET_MAX
    && p.counter >= 0
    && p.calibrated <= 1
    && -CAL_SEARCH_STEPS <= p.rawUp <= CAL_SEARCH_STEPS
    && -CAL_SEARCH_STEPS <= p.rawDown <= CAL_SEARCH_STEPS
    && (p.calibrated != 0 ==> 2 * ENDPOINT_GUARD < p.rawDown - p.rawUp <= CAL_SEARCH_STEPS)
  }

  /** The health counters get no bounds. */
  predicate ValidateV2(p: V2) {
    ValidateV1(p.v1)
  }

  predicate ValidateV3(p: V3) {
    ValidateV2(p.v2)
  }

  predicate ValidateV4(p: V4) {
    && ValidateV3(p.v3)
    && (p.sgCalCurrentMa != 0 ==> RUN_CURRENT_MIN <= p.sgCalCurrentMa <= RUN_CURRENT_MAX)
  }

  /** A stored trip holds only at the speed it was set at. */
  function TripAtCompiledSpeed(trip: int, storedHz: int, compiledHz: int): int {
    if storedHz == compiledHz then trip else 0
  }

  // ---------------------------------------------------------------------------
  //  Migration
  // ---------------------------------------------------------------------------

  function MigrateV1(p: V1): V2 {
    V2(p.(version := 2), Lifetime(0, 0, 0, 0, 0, 0))
  }

  /** The display counter is a lower bound on the strokes ever made. */
  function MigrateV2(p: V2): V3 {
    V3(p.(v1 := p.v1.(version := 3)), p.v1.counter % U32)
  }

  function MigrateV3(p: V3): V4 {
    V4(p.(v2 := p.v2.(v1 := p.v2.v1.(version := 4))), Triple(0, 0, 0), 0, 0)
  }

  datatype ParseResult =
    | Ok(settings: V4, fromVersion: int)
    | TooShort | SizeMismatch | UnknownVersion | Invalid

  function ParseAndMigrate(data: seq<byte>): ParseResult {
    if |data| < 2 then TooShort
    else
      var version := U16At(data, 0);
      if version == 1 then
        if |data| != 36 then SizeMismatch
        else if !ValidateV1(ReadV1(data)) then Invalid
        else Ok(MigrateV3(MigrateV2(MigrateV1(ReadV1(data)))), 1)
      else if version == 2 then
        if |data| != 52 then SizeMismatch
        else if !ValidateV2(ReadV2(data)) then Invalid
        else Ok(MigrateV3(MigrateV2(ReadV2(data))), 2)
      else if version == 3 then
        if |data| != 56 then SizeMismatch
        else if !ValidateV3(ReadV3(data)) then Invalid
        else Ok(MigrateV3(ReadV3(data)), 3)
      else if version == 4 then
        if |data| != 72 then SizeMismatch
        else if !ValidateV4(ReadV4(data)) then Invalid
        else Ok(ReadV4(data), 4)
      else UnknownVersion
  }

  /** What the layout of version `v` takes. */
  function SizeOf(v: int): nat {
    if v == 1 then 36 else if v == 2 then 52 else if v == 3 then 56 else 72
  }

  lemma ReadFits(d: seq<byte>)
    requires |d| >= 36
    ensures FitsV1(ReadV1(d))
    ensures |d| >= 52 ==> FitsHealth(ReadV2(d).health, 0)
  {
  }

  /** A blob is accepted exactly if its length is that of the version it names and that
      version's own validator accepts it; what comes out passes the current validator, and
      every field the old layout had is carried over untouched. */
  lemma MigrationSound(data: seq<byte>)
    ensures var r := ParseAndMigrate(data);
            && (r.Ok? <==>
                  && |data| >= 2 && 1 <= U16At(data, 0) <= 4 && |data| == SizeOf(U16At(data, 0))
                  && ValidateV1(ReadV1(data)) && (U16At(data, 0) == 4 ==> ValidateV4(ReadV4(data))))
            && (r.Ok? ==>
                  var p, v := r.settings, r.fromVersion;
                  && v == U16At(data, 0) && ValidateV4(p) && FitsV4(p)
                  && p.v3.v2.v1 == ReadV1(data).(version := 4)
                  && p.v3.v2.health == (if v >= 2 then ReadV2(data).health else Lifetime(0, 0, 0, 0, 0, 0))
                  && p.v3.lifetimeCycles == (if v >= 3 then ReadV3(data).lifetimeCycles else ReadV1(data).counter)
                  && (v < 4 ==> p.speeds == Triple(0, 0, 0) && p.sgCalCurrentMa == p.reserved == 0)
                  && (v == 4 ==> p == ReadV4(data)))
            && (r.TooShort? <==> |data| < 2)
            && (r.UnknownVersion? <==> |data| >= 2 && !(1 <= U16At(data, 0) <= 4))
            && (r.SizeMismatch? <==>
                  |data| >= 2 && 1 <= U16At(data, 0) <= 4 && |data| != SizeOf(U16At(data, 0)))
  {
    hide U16At, U32At, I32At;
    if |data| >= 2 && 1 <= U16At(data, 0) <= 4 && |data| == SizeOf(U16At(data, 0)) {
      ReadFits4(data);
    }
  }

  /** Every step of the migration names the version it leads to. */
  lemma StepsNamed(p: V1, q: V2, r: V3)
    ensures MigrateV1(p).v1.version == 2 && MigrateV2(q).v2.v1.version == 3 && MigrateV3(r).v3.v2.v1.version == 4
  {
  }

  lemma ReadFits4(d: seq<byte>)
    requires |d| >= 36
    ensures FitsV1(ReadV1(d)) && ReadV1(d).version == U16At(d, 0)
    ensures |d| >= 52 ==> FitsHealth(ReadV2(d).health, 0)
    ensures |d| >= 56 ==> IsU32(ReadV3(d).lifetimeCycles)
    ensures |d| >= 72 ==> FitsV4(ReadV4(d))
  {
    ReadFits(d);
  }

  /** What is written in the current layout is read back exactly if it is valid. */
  lemma {:induction false} WrittenReadBack(p: V4)
    requires FitsV4(p) && p.v3.v2.v1.version == 4
    ensures ParseAndMigrate(Image(p)) == if ValidateV4(p) then Ok(p, 4) else Invalid
  {
    hide ReadV4, ValidateV4, FitsV4;
    ImageRead(p);
    VersionLeads(p);
  }

  lemma VersionLeads(p: V4)
    requires FitsV4(p)
    ensures U16At(Image(p), 0) == p.v3.v2.v1.version
  {
    hide Octet;
    assert Image(p)[0] == Octet(p.v3.v2.v1.version, 0) && Image(p)[1] == Octet(p.v3.v2.v1.version, 1);
    ReadU16(Image(p), 0, p.v3.v2.v1.version);
  }
}
