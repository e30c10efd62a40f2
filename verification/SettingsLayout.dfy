/** The settings blob as the packed C structures of main/settings_blob.h: every version is the
    fields of the one before, and its own after them. */
module SettingsLayout {
  import opened Numbers
  import opened SettingsBlob

  /** One field: how many bytes wide it is, and its value. */
  datatype Cell = Cell(width: nat, value: int)

  /** Little-endian, negative values as two's complement. */
  function Bytes(width: nat, v: int): (d: seq<byte>)
    ensures |d| == width
  {
    if width == 0 then [] else [v % 256] + Bytes(width - 1, v / 256)
  }

  /** Fields one after the other, without padding. */
  function Packed(cs: seq<Cell>): seq<byte> {
    if |cs| == 0 then []
    else Packed(cs[..|cs| - 1]) + Bytes(cs[|cs| - 1].width, cs[|cs| - 1].value)
  }

  function CellsV1(p: V1): seq<Cell> {
    [Cell(2, p.version), Cell(2, p.runCurrentMa), Cell(4, p.rawUp), Cell(4, p.rawDown), Cell(4, p.upOffset),
     Cell(4, p.downOffset), Cell(4, p.workZone), Cell(4, p.counter), Cell(2, p.trips.slow), Cell(2, p.trips.normal),
     Cell(2, p.trips.fast), Cell(1, p.activeProfile), Cell(1, p.calibrated)]
  }

  function CellsV2(h: Lifetime): seq<Cell> {
    [Cell(4, h.totalCycleTimeMs), Cell(4, h.longestCycleMs), Cell(2, h.stallCount), Cell(2, h.calibrationCount),
     Cell(2, h.otaCount), Cell(2, h.resetCount)]
  }

  function CellsV4(p: V4): seq<Cell> {
    [Cell(4, p.speeds.slow), Cell(4, p.speeds.normal), Cell(4, p.speeds.fast), Cell(2, p.sgCalCurrentMa),
     Cell(2, p.reserved)]
  }

  lemma {:induction false} BytesAre(width: nat, v: int, i: nat)
    requires i < width
    ensures Bytes(width, v)[i] == Octet(v, i)
  {
    if i > 0 {
      BytesAre(width - 1, v / 256, i - 1);
    }
  }

  lemma PackedNext(cs: seq<Cell>, c: Cell)
    ensures Packed(cs + [c]) == Packed(cs) + Bytes(c.width, c.value)
  {
    assert (cs + [c])[..|cs|] == cs;
  }

  /** The cells fill the image up to byte `o`. */
  ghost predicate Fills(cs: seq<Cell>, p: V4, o: nat) {
    |Packed(cs)| == o <= 72 && forall i :: 0 <= i < o ==> Packed(cs)[i] == ByteV4(p, i)
  }

  lemma Fill(cs: seq<Cell>, c: Cell, p: V4, o: nat)
    requires Fills(cs, p, o) && 0 < c.width <= 4 && o + c.width <= 72
    requires ByteV4(p, o) == Octet(c.value, 0)
    requires c.width > 1 ==> ByteV4(p, o + 1) == Octet(c.value, 1)
    requires c.width > 2 ==> ByteV4(p, o + 2) == Octet(c.value, 2)
    requires c.width > 3 ==> ByteV4(p, o + 3) == Octet(c.value, 3)
    ensures Fills(cs + [c], p, o + c.width)
  {
    hide ByteV4, Octet, Bytes, Packed;
    PackedNext(cs, c);
    forall i | 0 <= i < c.width
      ensures Bytes(c.width, c.value)[i] == ByteV4(p, o + i)
    {
      BytesAre(c.width, c.value, i);
    }
    forall i | 0 <= i < o + c.width
      ensures Packed(cs + [c])[i] == ByteV4(p, i)
    {
      if i >= o {
        assert Packed(cs + [c])[i] == Bytes(c.width, c.value)[i - o];
        assert Bytes(c.width, c.value)[i - o] == ByteV4(p, o + (i - o));
      }
    }
  }

  lemma NothingFilled(p: V4)
    ensures Fills([], p, 0)
  {
  }

  lemma FillV1(p: V4)
    ensures Fills(CellsV1(p.v3.v2.v1), p, 36)
  {
    hide Octet, Fills;
    var cs := CellsV1(p.v3.v2.v1);
    NothingFilled(p);
    Fill([], cs[0], p, 0);
    assert [] + [cs[0]] == cs[..1];
    Fill(cs[..1], cs[1], p, 2);
    assert cs[..1] + [cs[1]] == cs[..2];
    Fill(cs[..2], cs[2], p, 4);
    assert cs[..2] + [cs[2]] == cs[..3];
    Fill(cs[..3], cs[3], p, 8);
    assert cs[..3] + [cs[3]] == cs[..4];
    Fill(cs[..4], cs[4], p, 12);
    assert cs[..4] + [cs[4]] == cs[..5];
    Fill(cs[..5], cs[5], p, 16);
    assert cs[..5] + [cs[5]] == cs[..6];
    Fill(cs[..6], cs[6], p, 20);
    assert cs[..6] + [cs[6]] == cs[..7];
    Fill(cs[..7], cs[7], p, 24);
    assert cs[..7] + [cs[7]] == cs[..8];
    Fill(cs[..8], cs[8], p, 28);
    assert cs[..8] + [cs[8]] == cs[..9];
    Fill(cs[..9], cs[9], p, 30);
    assert cs[..9] + [cs[9]] == cs[..10];
    Fill(cs[..10], cs[10], p, 32);
    assert cs[..10] + [cs[10]] == cs[..11];
    Fill(cs[..11], cs[11], p, 34);
    assert cs[..11] + [cs[11]] == cs[..12];
    Fill(cs[..12], cs[12], p, 35);
    assert cs[..12] + [cs[12]] == cs;
  }

  lemma FillV3(cs: seq<Cell>, p: V4)
    requires Fills(cs, p, 36)
    ensures Fills(cs + CellsV2(p.v3.v2.health), p, 52)
    ensures Fills(cs + CellsV2(p.v3.v2.health) + [Cell(4, p.v3.lifetimeCycles)], p, 56)
  {
    hide Octet, Fills;
    var h := CellsV2(p.v3.v2.health);
    Fill(cs, h[0], p, 36);
    assert cs + [h[0]] == cs + h[..1];
    Fill(cs + h[..1], h[1], p, 40);
    assert cs + h[..1] + [h[1]] == cs + h[..2];
    Fill(cs + h[..2], h[2], p, 44);
    assert cs + h[..2] + [h[2]] == cs + h[..3];
    Fill(cs + h[..3], h[3], p, 46);
    assert cs + h[..3] + [h[3]] == cs + h[..4];
    Fill(cs + h[..4], h[4], p, 48);
    assert cs + h[..4] + [h[4]] == cs + h[..5];
    Fill(cs + h[..5], h[5], p, 50);
    assert cs + h[..5] + [h[5]] == cs + h;
    Fill(cs + h, Cell(4, p.v3.lifetimeCycles), p, 52);
  }

  lemma FillV4(cs: seq<Cell>, p: V4)
    requires Fills(cs, p, 56)
    ensures Fills(cs + CellsV4(p), p, 72)
  {
    hide Octet, Fills;
    var q := CellsV4(p);
    Fill(cs, q[0], p, 56);
    assert cs + [q[0]] == cs + q[..1];
    Fill(cs + q[..1], q[1], p, 60);
    assert cs + q[..1] + [q[1]] == cs + q[..2];
    Fill(cs + q[..2], q[2], p, 64);
    assert cs + q[..2] + [q[2]] == cs + q[..3];
    Fill(cs + q[..3], q[3], p, 68);
    assert cs + q[..3] + [q[3]] == cs + q[..4];
    Fill(cs + q[..4], q[4], p, 70);
    assert cs + q[..4] + [q[4]] == cs + q;
  }

  /** The image is the current structure's fields packed in their order, whatever their values; the
      structures of the versions before it are its first 36, 52 and 56 bytes. */
  lemma ImageIsPacked(p: V4)
    ensures var v1 := CellsV1(p.v3.v2.v1);
            var v2 := v1 + CellsV2(p.v3.v2.health);
            var v3 := v2 + [Cell(4, p.v3.lifetimeCycles)];
            && Image(p) == Packed(v3 + CellsV4(p))
            && Image(p)[..36] == Packed(v1) && Image(p)[..52] == Packed(v2) && Image(p)[..56] == Packed(v3)
  {
    hide ByteV4, Packed;
    FillV1(p);
    FillV3(CellsV1(p.v3.v2.v1), p);
    FillV4(CellsV1(p.v3.v2.v1) + CellsV2(p.v3.v2.health) + [Cell(4, p.v3.lifetimeCycles)], p);
  }

  lemma PrefixRead(d: seq<byte>)
    requires |d| == 72
    ensures ReadV1(d[..36]) == ReadV1(d) && ReadV2(d[..52]) == ReadV2(d) && ReadV3(d[..56]) == ReadV3(d)
  {
  }

  /** So the structures of every version, packed as a device of that version left them on flash, are
      read as what they hold. */
  lemma EveryVersionRead(p: V4)
    requires FitsV4(p)
    ensures var v1 := CellsV1(p.v3.v2.v1);
            var v2 := v1 + CellsV2(p.v3.v2.health);
            var v3 := v2 + [Cell(4, p.v3.lifetimeCycles)];
            var v4 := v3 + CellsV4(p);
            && |Packed(v1)| == 36 && ReadV1(Packed(v1)) == p.v3.v2.v1
            && |Packed(v2)| == 52 && ReadV2(Packed(v2)) == p.v3.v2
            && |Packed(v3)| == 56 && ReadV3(Packed(v3)) == p.v3
            && |Packed(v4)| == 72 && ReadV4(Packed(v4)) == p
  {
    hide Packed, Image, U16At, U32At, I32At, FitsV4, CellsV1, CellsV2, CellsV4;
    ImageIsPacked(p);
    ImageRead(p);
    PrefixRead(Image(p));
  }

  /** What a blob may hold, in numbers: mA, steps, StallGuard units; a calibration says yes or no, and
      if it says yes the endpoints are more than 100 steps apart and no further than a search goes. */
  predicate InRange(p: V1) {
    && 1000 <= p.runCurrentMa <= 4500 && 0 <= p.workZone <= 20000 && p.activeProfile in {0, 1, 2}
    && 0 <= p.trips.slow <= 1023 && 0 <= p.trips.normal <= 1023 && 0 <= p.trips.fast <= 1023
    && -8000 <= p.upOffset <= 8000 && -8000 <= p.downOffset <= 8000 && p.counter >= 0
    && -120000 <= p.rawUp <= 120000 && -120000 <= p.rawDown <= 120000
    && (p.calibrated == 0 || (p.calibrated == 1 && 100 < p.rawDown - p.rawUp <= 120000))
  }

  lemma RangeExactly(p: V1)
    requires FitsV1(p)
    ensures ValidateV1(p) <==> InRange(p)
  {
  }

  /** A structure of any version, packed, is accepted exactly if it says its own version and holds
      values in range; the current one's calibration current must be one, or 0. */
  lemma PackedAccepted(p: V4)
    requires FitsV4(p)
    ensures var q, v := p.v3.v2.v1, p.v3.v2.v1.version;
            var v1 := CellsV1(q);
            var v2 := v1 + CellsV2(p.v3.v2.health);
            var v3 := v2 + [Cell(4, p.v3.lifetimeCycles)];
            && (ParseAndMigrate(Packed(v1)).Ok? <==> v == 1 && InRange(q))
            && (ParseAndMigrate(Packed(v2)).Ok? <==> v == 2 && InRange(q))
            && (ParseAndMigrate(Packed(v3)).Ok? <==> v == 3 && InRange(q))
            && (ParseAndMigrate(Packed(v3 + CellsV4(p))).Ok? <==>
                  v == 4 && InRange(q) && (p.sgCalCurrentMa == 0 || 1000 <= p.sgCalCurrentMa <= 4500))
  {
    hide Packed, U16At, U32At, I32At, CellsV1, CellsV2, CellsV4, InRange, ValidateV1;
    EveryVersionRead(p);
    RangeExactly(p.v3.v2.v1);
    var v1 := CellsV1(p.v3.v2.v1);
    var v2 := v1 + CellsV2(p.v3.v2.health);
    var v3 := v2 + [Cell(4, p.v3.lifetimeCycles)];
    LeadingVersion(Packed(v1));
    LeadingVersion(Packed(v2));
    LeadingVersion(Packed(v3));
    LeadingVersion(Packed(v3 + CellsV4(p)));
  }

  lemma LeadingVersion(d: seq<byte>)
    requires |d| >= 36
    ensures U16At(d, 0) == ReadV1(d).version
  {
  }
}
