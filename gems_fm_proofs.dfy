/** Properties of the GEMS FM record codec: the offsets of every section,
    the round trips in both directions, and where the key-on bits live. */
module GemsFMProofs {
  import opened Bitfield
  import opened Buffer
  import GemsOperator
  import opened GemsFMRecord

  /** The fixed offsets the header states: operators 1,2,3,4 at 5, 17, 11
      and 23; frequencies A9, AA, A8, A2 at 33, 35, 31 and 29; and 39 bytes
      in all (type, 4 channel bytes, 24 operator bytes, 8 frequency bytes,
      the key byte and unk7). */
  lemma Offsets()
    ensures OpOffset(0) == 5 && OpOffset(1) == 17 && OpOffset(2) == 11 && OpOffset(3) == 23
    ensures FreqOffset(0) == 33 && FreqOffset(1) == 35 && FreqOffset(2) == 31 && FreqOffset(3) == 29
    ensures OpBase == 1 + 4 && FreqBase == OpBase + 4 * GemsOperator.OperatorSize
    ensures KeyAt == FreqBase + 4 * 2 && Unk7At == KeyAt + 1 && RecordSize == Unk7At + 1
  {
  }

  /** Typed operator `slot` is written to, and read from, the six bytes at OpOffset(slot). */
  lemma EncodeOperatorAt(r: FM, slot: nat)
    requires Shaped(r) && slot < 4
    ensures Encode(r)[OpOffset(slot)..OpOffset(slot) + GemsOperator.OperatorSize]
            == GemsOperator.Encode(r.OP[slot])
  {
    EncodeSections(r);
    var k := OpBlock(slot);
    var o := EncodeOperators(r);
    var e0, e1 := GemsOperator.Encode(r.OP[OpOnDisk[0]]), GemsOperator.Encode(r.OP[OpOnDisk[1]]);
    var e2, e3 := GemsOperator.Encode(r.OP[OpOnDisk[2]]), GemsOperator.Encode(r.OP[OpOnDisk[3]]);
    assert o == e0 + e1 + e2 + e3;
    assert o[6 * k..6 * k + 6] == [e0, e1, e2, e3][k];
    assert Encode(r)[OpOffset(slot)..OpOffset(slot) + 6] == o[6 * k..6 * k + 6];
  }

  /** Typed frequency `slot` is written to, and read from, the two bytes at FreqOffset(slot). */
  lemma EncodeFreqAt(r: FM, slot: nat)
    requires Shaped(r) && slot < 4
    ensures Encode(r)[FreqOffset(slot)] == r.CH3_F[slot].first
    ensures Encode(r)[FreqOffset(slot) + 1] == r.CH3_F[slot].second
  {
    EncodeSections(r);
    var k := FreqPair(slot);
    var f := EncodeFreqs(r);
    assert f[2 * k] == r.CH3_F[slot].first && f[2 * k + 1] == r.CH3_F[slot].second;
    assert Encode(r)[FreqOffset(slot)] == f[2 * k];
    assert Encode(r)[FreqOffset(slot) + 1] == f[2 * k + 1];
  }

  lemma HeaderRoundTrip(s: seq<byte>)
    requires |s| == RecordSize
    ensures EncodeHeader(Decode(s)) == s[..OpBase]
  {
    LayoutsFillBytes();
    var r := Decode(s);
    ByteRoundTrip(s[1], Chan1);
    ByteRoundTrip(s[2], Chan2);
    ByteRoundTrip(s[3], Chan3);
    ByteRoundTrip(s[4], Chan4);
    assert [r.unk1, r.LFO_on, r.LFO_val] == Fields(s[1], Chan1);
    assert [r.CH3, r.unk2] == Fields(s[2], Chan2);
    assert [r.unk3, r.FB, r.ALG] == Fields(s[3], Chan3);
    assert [r.L, r.R, r.AMS, r.unk4, r.FMS] == Fields(s[4], Chan4);
    HeaderOf(s, r);
  }

  /** A buffer whose first five bytes are the packed header fields of r starts with EncodeHeader(r). */
  lemma HeaderOf(s: seq<byte>, r: FM)
    requires |s| == RecordSize && s[0] == r.kind
    requires Pack([r.unk1, r.LFO_on, r.LFO_val], Chan1) == s[1]
    requires Pack([r.CH3, r.unk2], Chan2) == s[2]
    requires Pack([r.unk3, r.FB, r.ALG], Chan3) == s[3]
    requires Pack([r.L, r.R, r.AMS, r.unk4, r.FMS], Chan4) == s[4]
    ensures EncodeHeader(r) == s[..OpBase]
  {
  }

  lemma ByteRoundTrip(b: byte, ws: seq<nat>)
    requires Width(ws) == 8
    ensures Pack(Fields(b, ws), ws) == b
  {
    PackUnpack(b, ws);
  }

  /** The operator read from the block of `slot` encodes back to that block. */
  lemma OperatorAtRoundTrip(s: seq<byte>, slot: nat)
    requires |s| == RecordSize && slot < 4
    ensures GemsOperator.Encode(OperatorAt(s, slot)) == s[OpOffset(slot)..OpOffset(slot) + 6]
  {
    GemsOperator.EncodeDecode(s[OpOffset(slot)..OpOffset(slot) + 6]);
  }

  /** Four consecutive pieces of a buffer, glued back together, are that stretch of it. */
  lemma Glue4<T>(s: seq<T>, o: nat, n: nat, a: seq<T>, b: seq<T>, c: seq<T>, d: seq<T>)
    requires o + 4 * n <= |s|
    requires a == s[o..o + n] && b == s[o + n..o + 2 * n]
    requires c == s[o + 2 * n..o + 3 * n] && d == s[o + 3 * n..o + 4 * n]
    ensures a + b + c + d == s[o..o + 4 * n]
  {
  }

  lemma OperatorsRoundTrip(s: seq<byte>)
    requires |s| == RecordSize
    ensures EncodeOperators(Decode(s)) == s[OpBase..FreqBase]
  {
    var ops := Decode(s).OP;
    assert ops == [OperatorAt(s, 0), OperatorAt(s, 1), OperatorAt(s, 2), OperatorAt(s, 3)];
    OperatorAtRoundTrip(s, 0);
    OperatorAtRoundTrip(s, 1);
    OperatorAtRoundTrip(s, 2);
    OperatorAtRoundTrip(s, 3);
    Offsets();
    Glue4(s, OpBase, 6, GemsOperator.Encode(ops[0]), GemsOperator.Encode(ops[2]),
          GemsOperator.Encode(ops[1]), GemsOperator.Encode(ops[3]));
  }

  lemma FreqsRoundTrip(s: seq<byte>)
    requires |s| == RecordSize
    ensures EncodeFreqs(Decode(s)) == s[FreqBase..KeyAt]
  {
    var f := Decode(s).CH3_F;
    assert f == [FreqAt(s, 0), FreqAt(s, 1), FreqAt(s, 2), FreqAt(s, 3)];
    assert s[FreqBase..KeyAt] == [s[29], s[30], s[31], s[32], s[33], s[34], s[35], s[36]];
  }

  /** The five sections of a record, glued back together, are the record. */
  lemma GlueRecord(s: seq<byte>, h: seq<byte>, o: seq<byte>, f: seq<byte>, k: byte, u: byte)
    requires |s| == RecordSize
    requires h == s[..OpBase] && o == s[OpBase..FreqBase] && f == s[FreqBase..KeyAt]
    requires k == s[KeyAt] && u == s[Unk7At]
    ensures h + o + f + [k, u] == s
  {
    assert s == s[..OpBase] + s[OpBase..FreqBase] + s[FreqBase..KeyAt] + [s[KeyAt], s[Unk7At]];
  }

  /** The key byte decoded and encoded again is unchanged. */
  lemma KeyRoundTrip(s: seq<byte>)
    requires |s| == RecordSize
    ensures KeyByte(Decode(s).unk6, Decode(s).KEY) == s[KeyAt]
  {
    LayoutsFillBytes();
    var r := Decode(s);
    ByteRoundTrip(s[KeyAt], KeyLayout);
    assert [r.unk6, r.KEY] == Fields(s[KeyAt], KeyLayout);
  }

  /** Bit-exact round trip of the whole record: decoding any 39 bytes and
      encoding the result reproduces them, reserved bits included. */
  lemma EncodeDecode(s: seq<byte>)
    requires |s| == RecordSize
    ensures Encode(Decode(s)) == s
  {
    var r := Decode(s);
    HeaderRoundTrip(s);
    OperatorsRoundTrip(s);
    FreqsRoundTrip(s);
    KeyRoundTrip(s);
    GlueRecord(s, EncodeHeader(r), EncodeOperators(r), EncodeFreqs(r), KeyByte(r.unk6, r.KEY), r.unk7);
  }

  /** Every field of a decoded record fits its declared width, so decoding
      and encoding again is the identity on everything Decode yields. */
  lemma DecodeInRange(s: seq<byte>)
    requires |s| == RecordSize
    ensures InRange(Decode(s))
  {
    LayoutsFillBytes();
    var c1, c2, c3 := Fields(s[1], Chan1), Fields(s[2], Chan2), Fields(s[3], Chan3);
    var c4, k := Fields(s[4], Chan4), Fields(s[KeyAt], KeyLayout);
    var ops := [GemsOperator.Decode(s[5..11]), GemsOperator.Decode(s[17..23]),
                GemsOperator.Decode(s[11..17]), GemsOperator.Decode(s[23..29])];
    var r := FM(s[0], c1[0], c1[1], c1[2], c2[0], c2[1], c3[0], c3[1], c3[2],
                c4[0], c4[1], c4[2], c4[3], c4[4], ops,
                [Freq(s[33], s[34]), Freq(s[35], s[36]), Freq(s[31], s[32]), Freq(s[29], s[30])],
                k[0], k[1], s[Unk7At]);
    HeaderFits(s[1], s[2], s[3], s[4], s[KeyAt]);
    InRangeOf(s, r);
    DecodeByBlocks(s, r);
  }

  /** The decoded fields of every channel byte and of the key byte fit their widths. */
  lemma HeaderFits(b1: byte, b2: byte, b3: byte, b4: byte, bk: byte)
    ensures Width(Chan1) == 8 && Width(Chan2) == 8 && Width(Chan3) == 8
    ensures Width(Chan4) == 8 && Width(KeyLayout) == 8
    ensures var c := Fields(b1, Chan1); c[0] < 16 && c[1] < 2 && c[2] < 8
    ensures var c := Fields(b2, Chan2); c[0] < 4 && c[1] < 64
    ensures var c := Fields(b3, Chan3); c[0] < 4 && c[1] < 8 && c[2] < 8
    ensures var c := Fields(b4, Chan4); c[0] < 2 && c[1] < 2 && c[2] < 4 && c[3] < 2 && c[4] < 8
    ensures var c := Fields(bk, KeyLayout); c[0] < 16 && c[1] < 16
  {
    LayoutsFillBytes();
  }

  /** A record whose header fields are those decoded from s, and whose
      operators fit, is in range. */
  lemma InRangeOf(s: seq<byte>, r: FM)
    requires |s| == RecordSize && Shaped(r)
    requires Width(Chan1) == 8 && Width(Chan2) == 8 && Width(Chan3) == 8
    requires Width(Chan4) == 8 && Width(KeyLayout) == 8
    requires r.unk1 == Fields(s[1], Chan1)[0] && r.LFO_on == Fields(s[1], Chan1)[1] && r.LFO_val == Fields(s[1], Chan1)[2]
    requires r.CH3 == Fields(s[2], Chan2)[0] && r.unk2 == Fields(s[2], Chan2)[1]
    requires r.unk3 == Fields(s[3], Chan3)[0] && r.FB == Fields(s[3], Chan3)[1] && r.ALG == Fields(s[3], Chan3)[2]
    requires r.L == Fields(s[4], Chan4)[0] && r.R == Fields(s[4], Chan4)[1] && r.AMS == Fields(s[4], Chan4)[2]
    requires r.unk4 == Fields(s[4], Chan4)[3] && r.FMS == Fields(s[4], Chan4)[4]
    requires r.unk6 == Fields(s[KeyAt], KeyLayout)[0] && r.KEY == Fields(s[KeyAt], KeyLayout)[1]
    requires var c := Fields(s[1], Chan1); c[0] < 16 && c[1] < 2 && c[2] < 8
    requires var c := Fields(s[2], Chan2); c[0] < 4 && c[1] < 64
    requires var c := Fields(s[3], Chan3); c[0] < 4 && c[1] < 8 && c[2] < 8
    requires var c := Fields(s[4], Chan4); c[0] < 2 && c[1] < 2 && c[2] < 4 && c[3] < 2 && c[4] < 8
    requires var c := Fields(s[KeyAt], KeyLayout); c[0] < 16 && c[1] < 16
    requires forall i :: 0 <= i < 4 ==> GemsOperator.Fits(r.OP[i])
    ensures InRange(r)
  {
  }

  /** A byte-wide layout whose fields fit their widths decodes back to them. */
  lemma FieldsPack(fs: seq<nat>, ws: seq<nat>)
    requires |fs| == |ws| && Width(ws) == 8
    requires forall i :: 0 <= i < |ws| ==> fs[i] < Pow2(ws[i])
    ensures Pack(fs, ws) < 256
    ensures Fields(Pack(fs, ws), ws) == fs
  {
    UnpackPack(fs, ws);
    assert Masked(fs, ws) == fs;
  }

  /** The single-byte fields of an encoded record sit at their offsets. */
  lemma HeaderBytes(r: FM)
    requires Shaped(r)
    ensures var s := Encode(r);
      && s[0] == r.kind
      && s[1] == Pack([r.unk1, r.LFO_on, r.LFO_val], Chan1)
      && s[2] == Pack([r.CH3, r.unk2], Chan2)
      && s[3] == Pack([r.unk3, r.FB, r.ALG], Chan3)
      && s[4] == Pack([r.L, r.R, r.AMS, r.unk4, r.FMS], Chan4)
      && s[KeyAt] == KeyByte(r.unk6, r.KEY)
      && s[Unk7At] == r.unk7
  {
    EncodeSections(r);
  }

  /** Bytes packed from in-range fields read back as those fields. */
  lemma HeaderBack(s: seq<byte>, r: FM)
    requires |s| == RecordSize && InRange(r)
    requires s[1] == Pack([r.unk1, r.LFO_on, r.LFO_val], Chan1)
    requires s[2] == Pack([r.CH3, r.unk2], Chan2)
    requires s[3] == Pack([r.unk3, r.FB, r.ALG], Chan3)
    requires s[4] == Pack([r.L, r.R, r.AMS, r.unk4, r.FMS], Chan4)
    requires s[KeyAt] == KeyByte(r.unk6, r.KEY)
    ensures Fields(s[1], Chan1) == [r.unk1, r.LFO_on, r.LFO_val]
    ensures Fields(s[2], Chan2) == [r.CH3, r.unk2]
    ensures Fields(s[3], Chan3) == [r.unk3, r.FB, r.ALG]
    ensures Fields(s[4], Chan4) == [r.L, r.R, r.AMS, r.unk4, r.FMS]
    ensures Fields(s[KeyAt], KeyLayout) == [r.unk6, r.KEY]
  {
    LayoutsFillBytes();
    FieldsPack([r.unk1, r.LFO_on, r.LFO_val], Chan1);
    FieldsPack([r.CH3, r.unk2], Chan2);
    FieldsPack([r.unk3, r.FB, r.ALG], Chan3);
    FieldsPack([r.L, r.R, r.AMS, r.unk4, r.FMS], Chan4);
    FieldsPack([r.unk6, r.KEY], KeyLayout);
  }

  /** A buffer whose every section reads as the fields of r decodes to r. */
  lemma DecodeOf(s: seq<byte>, r: FM)
    requires |s| == RecordSize && Shaped(r)
    requires s[0] == r.kind
    requires Fields(s[1], Chan1) == [r.unk1, r.LFO_on, r.LFO_val]
    requires Fields(s[2], Chan2) == [r.CH3, r.unk2]
    requires Fields(s[3], Chan3) == [r.unk3, r.FB, r.ALG]
    requires Fields(s[4], Chan4) == [r.L, r.R, r.AMS, r.unk4, r.FMS]
    requires Fields(s[KeyAt], KeyLayout) == [r.unk6, r.KEY]
    requires s[Unk7At] == r.unk7
    requires forall slot :: 0 <= slot < 4 ==> OperatorAt(s, slot) == r.OP[slot]
    requires forall slot :: 0 <= slot < 4 ==> FreqAt(s, slot) == r.CH3_F[slot]
    ensures Decode(s) == r
  {
    var d := Decode(s);
    assert d.OP == r.OP by {
      assert d.OP == [OperatorAt(s, 0), OperatorAt(s, 1), OperatorAt(s, 2), OperatorAt(s, 3)];
    }
    assert d.CH3_F == r.CH3_F by {
      assert d.CH3_F == [FreqAt(s, 0), FreqAt(s, 1), FreqAt(s, 2), FreqAt(s, 3)];
    }
  }

  /** Whatever six bytes encode an in-range operator at its block decode to it. */
  lemma OperatorAtOf(s: seq<byte>, slot: nat, op: GemsOperator.Operator)
    requires |s| == RecordSize && slot < 4 && GemsOperator.Fits(op)
    requires s[OpOffset(slot)..OpOffset(slot) + 6] == GemsOperator.Encode(op)
    ensures OperatorAt(s, slot) == op
  {
    GemsOperator.DecodeEncode(op);
  }

  lemma SlotBack(r: FM, slot: nat)
    requires InRange(r) && slot < 4
    ensures OperatorAt(Encode(r), slot) == r.OP[slot]
    ensures FreqAt(Encode(r), slot) == r.CH3_F[slot]
  {
    EncodeOperatorAt(r, slot);
    OperatorAtOf(Encode(r), slot, r.OP[slot]);
    EncodeFreqAt(r, slot);
  }

  /** Encoding then decoding gives back every record whose fields fit their widths. */
  lemma DecodeEncode(r: FM)
    requires InRange(r)
    ensures Decode(Encode(r)) == r
  {
    HeaderBytes(r);
    HeaderBack(Encode(r), r);
    forall slot | 0 <= slot < 4
      ensures OperatorAt(Encode(r), slot) == r.OP[slot] && FreqAt(Encode(r), slot) == r.CH3_F[slot]
    {
      SlotBack(r, slot);
    }
    DecodeOf(Encode(r), r);
  }

  /** Bit j < 4 of the key byte is bit j of KEY: the key-on nibble sits in
      the low four bits, below unk6, whatever either field holds. */
  lemma KeyByteBits(unk6: byte, key: byte, j: nat)
    requires j < 4
    ensures Bit(KeyByte(unk6, key), j) == Bit(key, j)
  {
    var lo := Low(key, 4);
    assert Pack([key], [4]) == lo by {
      assert [key][1..] == [];
    }
    assert KeyByte(unk6, key) == Shl(Low(unk6, 4), 4) + lo by {
      assert [unk6, key][1..] == [key];
    }
    BitAbove(Low(unk6, 4), lo, 4, j);
    BitOfLow(key, 4, j);
  }

  /** The four key-on flags IsOn reads (bits 0 to 3 of the key byte)
      determine a 4-bit KEY: two key bytes with the same flags hold the
      same KEY, whatever their unk6. */
  lemma KeyFromOnFlags(unk6a: byte, keya: byte, unk6b: byte, keyb: byte)
    requires keya < 16 && keyb < 16
    requires forall j :: 0 <= j < 4 ==> Bit(KeyByte(unk6a, keya), j) == Bit(KeyByte(unk6b, keyb), j)
    ensures keya == keyb
  {
    forall j | 0 <= j < 4 ensures Bit(keya, j) == Bit(keyb, j) {
      KeyByteBits(unk6a, keya, j);
      KeyByteBits(unk6b, keyb, j);
    }
    assert Pow2(4) == 16;
    BitsDetermine(keya, keyb, 4);
  }

  /** The decoded KEY has exactly the four low bits of the byte at offset 37. */
  lemma KeyFromDisk(s: seq<byte>, j: nat)
    requires |s| == RecordSize && j < 4
    ensures Decode(s).KEY < 16
    ensures Bit(Decode(s).KEY, j) == Bit(s[KeyAt], j)
  {
    LayoutsFillBytes();
    var b := s[KeyAt];
    assert Fields(b, KeyLayout) == [Low(Shr(b, 4), 4)] + Unpack(Low(b, 4), [4]);
    assert Unpack(Low(b, 4), [4]) == [Low(Shr(Low(b, 4), 0), 4)] + Unpack(Low(Low(b, 4), 0), []);
    assert Decode(s).KEY == Low(b, 4);
    BitOfLow(b, 4, j);
  }

  /** The record read byte by byte and block by block, with the block
      orders written out (operators 1,3,2,4 at 5, 11, 17, 23; frequencies
      A2, A8, A9, AA at 29, 31, 33, 35), is the record Decode reads. */
  lemma DecodeByBlocks(s: seq<byte>, r: FM)
    requires |s| == RecordSize && Shaped(r)
    requires r.kind == s[0] && r.unk7 == s[Unk7At]
    requires r.unk1 == Fields(s[1], Chan1)[0] && r.LFO_on == Fields(s[1], Chan1)[1] && r.LFO_val == Fields(s[1], Chan1)[2]
    requires r.CH3 == Fields(s[2], Chan2)[0] && r.unk2 == Fields(s[2], Chan2)[1]
    requires r.unk3 == Fields(s[3], Chan3)[0] && r.FB == Fields(s[3], Chan3)[1] && r.ALG == Fields(s[3], Chan3)[2]
    requires r.L == Fields(s[4], Chan4)[0] && r.R == Fields(s[4], Chan4)[1] && r.AMS == Fields(s[4], Chan4)[2]
    requires r.unk4 == Fields(s[4], Chan4)[3] && r.FMS == Fields(s[4], Chan4)[4]
    requires r.unk6 == Fields(s[KeyAt], KeyLayout)[0] && r.KEY == Fields(s[KeyAt], KeyLayout)[1]
    requires r.OP == [GemsOperator.Decode(s[5..11]), GemsOperator.Decode(s[17..23]),
                      GemsOperator.Decode(s[11..17]), GemsOperator.Decode(s[23..29])]
    requires r.CH3_F == [Freq(s[33], s[34]), Freq(s[35], s[36]), Freq(s[31], s[32]), Freq(s[29], s[30])]
    ensures Decode(s) == r
  {
    Offsets();
  }

  /** Writing frequencies A2, A8, A9, AA one after the other from offset 29
      writes the frequency section of the record. */
  lemma FreqSplices(d: seq<byte>, r: FM)
    requires Shaped(r) && RecordSize <= |d|
    ensures Splice(Splice(Splice(Splice(d, 29, FreqBytes(r.CH3_F[3])), 31, FreqBytes(r.CH3_F[2])),
                          33, FreqBytes(r.CH3_F[0])), 35, FreqBytes(r.CH3_F[1]))
            == Splice(d, FreqBase, EncodeFreqs(r))
  {
    var f3, f2 := FreqBytes(r.CH3_F[3]), FreqBytes(r.CH3_F[2]);
    var f0, f1 := FreqBytes(r.CH3_F[0]), FreqBytes(r.CH3_F[1]);
    SpliceAdjacent(d, 29, f3, f2);
    SpliceAdjacent(d, 29, f3 + f2, f0);
    SpliceAdjacent(d, 29, f3 + f2 + f0, f1);
  }

  /** Writing operators 1,3,2,4 one after the other from offset 5 writes the
      operator section of the record. */
  lemma OperatorSplices(d: seq<byte>, r: FM)
    requires Shaped(r) && RecordSize <= |d|
    ensures Splice(Splice(Splice(Splice(d, 5, GemsOperator.Encode(r.OP[0])), 11, GemsOperator.Encode(r.OP[2])),
                          17, GemsOperator.Encode(r.OP[1])), 23, GemsOperator.Encode(r.OP[3]))
            == Splice(d, OpBase, EncodeOperators(r))
  {
    var e0, e2 := GemsOperator.Encode(r.OP[0]), GemsOperator.Encode(r.OP[2]);
    var e1, e3 := GemsOperator.Encode(r.OP[1]), GemsOperator.Encode(r.OP[3]);
    SpliceAdjacent(d, 5, e0, e2);
    SpliceAdjacent(d, 5, e0 + e2, e1);
    SpliceAdjacent(d, 5, e0 + e2 + e1, e3);
  }

  /** Writing the header, the operators, the frequencies and the key bytes
      one after the other writes the whole record. */
  lemma EncodeBySplices(d: seq<byte>, r: FM)
    requires Shaped(r) && RecordSize <= |d|
    ensures Splice(Splice(Splice(Splice(d, 0, EncodeHeader(r)), OpBase, EncodeOperators(r)),
                          FreqBase, EncodeFreqs(r)), KeyAt, [KeyByte(r.unk6, r.KEY), r.unk7])
            == Splice(d, 0, Encode(r))
  {
    var h, o, f, t := EncodeHeader(r), EncodeOperators(r), EncodeFreqs(r), [KeyByte(r.unk6, r.KEY), r.unk7];
    SpliceAdjacent(d, 0, h, o);
    SpliceAdjacent(d, 0, h + o, f);
    SpliceAdjacent(d, 0, h + o + f, t);
  }
}
