/** The GEMS FM instrument record: 39 bytes holding the instrument type,
    four channel bytes, four operators, the four channel-3 frequencies and
    the key-on byte.

      offset 0       type
      offset 1       unk1:4  LFO_on:1  LFO_val:3
      offset 2       CH3:2   unk2:6
      offset 3       unk3:2  FB:3      ALG:3                (B0H)
      offset 4       L:1     R:1       AMS:2  unk4:1  FMS:3 (B4H)
      offsets 5-28   four 6-byte operators, stored as operators 1,3,2,4
      offsets 29-36  four 2-byte frequencies, stored as A2, A8, A9, AA
      offset 37      unk6:4  KEY:4   (KEY bits are operators 4,3,2,1)
      offset 38      unk7

    In the typed view the operators are held in order 1,2,3,4 and the
    frequencies in order A9, AA, A8, A2 (operators 1,2,3,4). */
module GemsFMRecord {
  import opened Bitfield
  import GemsOperator

  const RecordSize: nat := 39

  /** Field widths of the channel bytes and of the key byte, most significant first. */
  const Chan1: seq<nat> := [4, 1, 3]        // unk1, LFO_on, LFO_val
  const Chan2: seq<nat> := [2, 6]           // CH3, unk2
  const Chan3: seq<nat> := [2, 3, 3]        // unk3, FB, ALG
  const Chan4: seq<nat> := [1, 1, 2, 1, 3]  // L, R, AMS, unk4, FMS
  const KeyLayout: seq<nat> := [4, 4]       // unk6, KEY

  const OpBase: nat := 5
  const FreqBase: nat := 29
  const KeyAt: nat := 37
  const Unk7At: nat := 38

  /** The typed slot (0 = operator 1) stored in each on-disk operator block. */
  const OpOnDisk: seq<nat> := [0, 2, 1, 3]
  /** The typed CH3_F slot stored in each on-disk frequency (A2, A8, A9, AA). */
  const FreqOnDisk: seq<nat> := [3, 2, 0, 1]

  datatype FM = FM(
    kind: byte,
    unk1: byte, LFO_on: byte, LFO_val: byte,
    CH3: byte, unk2: byte,
    unk3: byte, FB: byte, ALG: byte,
    L: byte, R: byte, AMS: byte, unk4: byte, FMS: byte,
    OP: seq<GemsOperator.Operator>,
    CH3_F: seq<Freq>,
    unk6: byte, KEY: byte,
    unk7: byte)

  /** The fixed array lengths of the source's struct. */
  predicate Shaped(r: FM)
  {
    |r.OP| == 4 && |r.CH3_F| == 4
  }

  /** Every field holds a value that fits its declared width. */
  predicate InRange(r: FM)
  {
    && Shaped(r)
    && r.unk1 < 16 && r.LFO_on < 2 && r.LFO_val < 8
    && r.CH3 < 4 && r.unk2 < 64
    && r.unk3 < 4 && r.FB < 8 && r.ALG < 8
    && r.L < 2 && r.R < 2 && r.AMS < 4 && r.unk4 < 2 && r.FMS < 8
    && (forall i :: 0 <= i < 4 ==> GemsOperator.Fits(r.OP[i]))
    && r.unk6 < 16 && r.KEY < 16
  }

  lemma LayoutsFillBytes()
    ensures Width(Chan1) == 8 && Width(Chan2) == 8 && Width(Chan3) == 8
    ensures Width(Chan4) == 8 && Width(KeyLayout) == 8 && Pow2(8) == 256
  {
  }

  /** The on-disk block that holds typed operator `slot`: the inverse of OpOnDisk. */
  function OpBlock(slot: nat): (k: nat)
    requires slot < 4
    ensures k < 4 && OpOnDisk[k] == slot
  {
    [0, 2, 1, 3][slot]
  }

  /** The on-disk position of typed frequency `slot`: the inverse of FreqOnDisk. */
  function FreqPair(slot: nat): (k: nat)
    requires slot < 4
    ensures k < 4 && FreqOnDisk[k] == slot
  {
    [2, 3, 1, 0][slot]
  }

  function OpOffset(slot: nat): nat
    requires slot < 4
  {
    OpBase + GemsOperator.OperatorSize * OpBlock(slot)
  }

  function FreqOffset(slot: nat): nat
    requires slot < 4
  {
    FreqBase + 2 * FreqPair(slot)
  }

  function FreqBytes(f: Freq): seq<byte>
  {
    [f.first, f.second]
  }

  function OperatorAt(s: seq<byte>, slot: nat): GemsOperator.Operator
    requires |s| == RecordSize && slot < 4
  {
    GemsOperator.Decode(s[OpOffset(slot)..OpOffset(slot) + GemsOperator.OperatorSize])
  }

  function FreqAt(s: seq<byte>, slot: nat): Freq
    requires |s| == RecordSize && slot < 4
  {
    Freq(s[FreqOffset(slot)], s[FreqOffset(slot) + 1])
  }

  function Decode(s: seq<byte>): (r: FM)
    requires |s| == RecordSize
    ensures Shaped(r)
  {
    LayoutsFillBytes();
    var c1, c2, c3 := Fields(s[1], Chan1), Fields(s[2], Chan2), Fields(s[3], Chan3);
    var c4, k := Fields(s[4], Chan4), Fields(s[KeyAt], KeyLayout);
    FM(s[0],
       c1[0], c1[1], c1[2],
       c2[0], c2[1],
       c3[0], c3[1], c3[2],
       c4[0], c4[1], c4[2], c4[3], c4[4],
       [OperatorAt(s, 0), OperatorAt(s, 1), OperatorAt(s, 2), OperatorAt(s, 3)],
       [FreqAt(s, 0), FreqAt(s, 1), FreqAt(s, 2), FreqAt(s, 3)],
       k[0], k[1],
       s[Unk7At])
  }

  /** The five header bytes: the type and the four channel bytes. */
  function EncodeHeader(r: FM): (h: seq<byte>)
    ensures |h| == OpBase
  {
    LayoutsFillBytes();
    [ r.kind,
      Pack([r.unk1, r.LFO_on, r.LFO_val], Chan1),
      Pack([r.CH3, r.unk2], Chan2),
      Pack([r.unk3, r.FB, r.ALG], Chan3),
      Pack([r.L, r.R, r.AMS, r.unk4, r.FMS], Chan4) ]
  }

  function EncodeOperators(r: FM): (b: seq<byte>)
    requires Shaped(r)
    ensures |b| == 4 * GemsOperator.OperatorSize
  {
    GemsOperator.Encode(r.OP[OpOnDisk[0]]) + GemsOperator.Encode(r.OP[OpOnDisk[1]])
    + GemsOperator.Encode(r.OP[OpOnDisk[2]]) + GemsOperator.Encode(r.OP[OpOnDisk[3]])
  }

  function EncodeFreqs(r: FM): (b: seq<byte>)
    requires Shaped(r)
    ensures |b| == 8
  {
    FreqBytes(r.CH3_F[FreqOnDisk[0]]) + FreqBytes(r.CH3_F[FreqOnDisk[1]])
    + FreqBytes(r.CH3_F[FreqOnDisk[2]]) + FreqBytes(r.CH3_F[FreqOnDisk[3]])
  }

  /** The byte at offset 37: unk6 above the key-on nibble. */
  function KeyByte(unk6: byte, key: byte): byte
  {
    LayoutsFillBytes();
    Pack([unk6, key], KeyLayout)
  }

  /** The record as the source writes it: exactly 39 bytes. */
  function Encode(r: FM): (s: seq<byte>)
    requires Shaped(r)
    ensures |s| == RecordSize
  {
    EncodeHeader(r) + EncodeOperators(r) + EncodeFreqs(r) + [KeyByte(r.unk6, r.KEY), r.unk7]
  }

  /** Every section of an encoded record sits at its offset. */
  lemma EncodeSections(r: FM)
    requires Shaped(r)
    ensures Encode(r)[..OpBase] == EncodeHeader(r)
    ensures Encode(r)[OpBase..FreqBase] == EncodeOperators(r)
    ensures Encode(r)[FreqBase..KeyAt] == EncodeFreqs(r)
    ensures Encode(r)[KeyAt] == KeyByte(r.unk6, r.KEY) && Encode(r)[Unk7At] == r.unk7
  {
    var h, o, f, t := EncodeHeader(r), EncodeOperators(r), EncodeFreqs(r), [KeyByte(r.unk6, r.KEY), r.unk7];
    var s := Encode(r);
    assert s == h + o + f + t;
    assert s[..OpBase] == h;
    assert s[OpBase..FreqBase] == o;
    assert s[FreqBase..KeyAt] == f;
  }
}
