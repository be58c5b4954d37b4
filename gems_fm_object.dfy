/** The GEMS FM instrument as an object: the fields of the record, its four
    operator objects and the channel-3 frequencies, filled from and written
    back to a 39-byte buffer. */
module GemsFMObject {
  import opened Bitfield
  import opened Buffer
  import GemsOperator
  import opened GemsOperatorObject
  import opened GemsFMRecord
  import GemsFMProofs

  class GemsFM {
    /** GemsInstrument::type, the byte at offset 0. */
    var kind: byte
    var unk1: byte
    var LFO_on: byte
    var LFO_val: byte
    var CH3: byte
    var unk2: byte
    var unk3: byte
    var FB: byte
    var ALG: byte
    var L: byte
    var R: byte
    var AMS: byte
    var unk4: byte
    var FMS: byte
    /** Operators in order 1,2,3,4. */
    const OP: seq<GemsFMOperator>
    /** Channel-3 frequencies in order A9, AA, A8, A2. */
    var CH3_F: seq<Freq>
    var unk6: byte
    var KEY: byte
    var unk7: byte

    /** Four distinct operator objects and four frequencies. */
    ghost predicate Valid()
      reads this
    {
      && |OP| == 4 && |CH3_F| == 4
      && OP[0] != OP[1] && OP[0] != OP[2] && OP[0] != OP[3]
      && OP[1] != OP[2] && OP[1] != OP[3] && OP[2] != OP[3]
    }

    /** The fields as one record value. */
    function Value(): (r: FM)
      requires Valid()
      reads this, OP
      ensures Shaped(r)
    {
      FM(kind, unk1, LFO_on, LFO_val, CH3, unk2, unk3, FB, ALG, L, R, AMS, unk4, FMS,
         [OP[0].Value(), OP[1].Value(), OP[2].Value(), OP[3].Value()],
         CH3_F, unk6, KEY, unk7)
    }

    /** An instrument with every field zero and four fresh zero operators. */
    constructor ()
      ensures Valid() && fresh(OP[0]) && fresh(OP[1]) && fresh(OP[2]) && fresh(OP[3])
      ensures Value() == FM(0, 0, 0, 0, 0, 0, 0, 0, 0, 0, 0, 0, 0, 0,
                            [GemsOperator.ZeroOperator, GemsOperator.ZeroOperator,
                             GemsOperator.ZeroOperator, GemsOperator.ZeroOperator],
                            [Freq(0, 0), Freq(0, 0), Freq(0, 0), Freq(0, 0)], 0, 0, 0)
    {
      kind, unk1, LFO_on, LFO_val, CH3, unk2, unk3 := 0, 0, 0, 0, 0, 0, 0;
      FB, ALG, L, R, AMS, unk4, FMS := 0, 0, 0, 0, 0, 0, 0;
      unk6, KEY, unk7 := 0, 0, 0;
      var o0 := new GemsFMOperator();
      var o1 := new GemsFMOperator();
      var o2 := new GemsFMOperator();
      var o3 := new GemsFMOperator();
      OP := [o0, o1, o2, o3];
      CH3_F := [Freq(0, 0), Freq(0, 0), Freq(0, 0), Freq(0, 0)];
    }

    /** Overwrites every field from the 39 bytes at the start of `data`,
        reading the operator blocks in order 1,3,2,4 and the frequencies in
        order A2, A8, A9, AA. */
    method Set(data: seq<byte>)
      requires Valid() && RecordSize <= |data|
      modifies this, OP
      ensures Valid()
      ensures Value() == Decode(data[..RecordSize])
    {
      var s := data[..RecordSize];
      OP[0].Set(s, 5);
      OP[2].Set(s, 11);
      OP[1].Set(s, 17);
      OP[3].Set(s, 23);
      CH3_F := [Freq(s[33], s[34]), Freq(s[35], s[36]), Freq(s[31], s[32]), Freq(s[29], s[30])];
      kind, unk7 := s[0], s[Unk7At];
      SetChannel1(s[1]);
      SetChannel2(s[2]);
      SetChannel3(s[3]);
      SetChannel4(s[4]);
      SetKey(s[KeyAt]);
      GemsFMProofs.DecodeByBlocks(s, Value());
    }

    /** Each SetChannelN (and SetKey) overwrites the fields of one byte of
        the record and leaves every other field as it was. */
    method SetChannel1(b: byte)
      requires Valid()
      modifies this
      ensures Valid()
      ensures Value() == old(Value()).(unk1 := Fields(b, Chan1)[0], LFO_on := Fields(b, Chan1)[1], LFO_val := Fields(b, Chan1)[2])
    {
      LayoutsFillBytes();
      var f := Fields(b, Chan1);
      unk1, LFO_on, LFO_val := f[0], f[1], f[2];
    }

    method SetChannel2(b: byte)
      requires Valid()
      modifies this
      ensures Valid()
      ensures Value() == old(Value()).(CH3 := Fields(b, Chan2)[0], unk2 := Fields(b, Chan2)[1])
    {
      LayoutsFillBytes();
      var f := Fields(b, Chan2);
      CH3, unk2 := f[0], f[1];
    }

    method SetChannel3(b: byte)
      requires Valid()
      modifies this
      ensures Valid()
      ensures Value() == old(Value()).(unk3 := Fields(b, Chan3)[0], FB := Fields(b, Chan3)[1], ALG := Fields(b, Chan3)[2])
    {
      LayoutsFillBytes();
      var f := Fields(b, Chan3);
      unk3, FB, ALG := f[0], f[1], f[2];
    }

    method SetChannel4(b: byte)
      requires Valid()
      modifies this
      ensures Valid()
      ensures Value() == old(Value()).(L := Fields(b, Chan4)[0], R := Fields(b, Chan4)[1], AMS := Fields(b, Chan4)[2],
                                       unk4 := Fields(b, Chan4)[3], FMS := Fields(b, Chan4)[4])
    {
      LayoutsFillBytes();
      var f := Fields(b, Chan4);
      L, R, AMS, unk4, FMS := f[0], f[1], f[2], f[3], f[4];
    }

    method SetKey(b: byte)
      requires Valid()
      modifies this
      ensures Valid()
      ensures Value() == old(Value()).(unk6 := Fields(b, KeyLayout)[0], KEY := Fields(b, KeyLayout)[1])
    {
      LayoutsFillBytes();
      var f := Fields(b, KeyLayout);
      unk6, KEY := f[0], f[1];
    }

    /** Writes the 39-byte record at the start of `data`; no other byte changes. */
    method Write(data: array<byte>)
      requires Valid() && RecordSize <= data.Length
      modifies data
      ensures data[..] == Splice(old(data[..]), 0, Encode(Value()))
    {
      ghost var r := Value();
      ghost var d := data[..];
      WriteHeader(data, r);
      WriteOperators(data, r);
      WriteFreqs(data, r);
      WriteKey(data, r);
      GemsFMProofs.EncodeBySplices(d, r);
    }

    /** The type byte and the four channel bytes. */
    method WriteHeader(data: array<byte>, ghost r: FM)
      requires Valid() && r == Value() && RecordSize <= data.Length
      modifies data
      ensures data[..] == Splice(old(data[..]), 0, EncodeHeader(r))
    {
      LayoutsFillBytes();
      var c1: seq<nat>, c2: seq<nat> := [unk1, LFO_on, LFO_val], [CH3, unk2];
      var c3: seq<nat>, c4: seq<nat> := [unk3, FB, ALG], [L, R, AMS, unk4, FMS];
      data[0], data[1], data[2] := kind, Pack(c1, Chan1), Pack(c2, Chan2);
      data[3], data[4] := Pack(c3, Chan3), Pack(c4, Chan4);
      assert data[..] == Splice(old(data[..]), 0, EncodeHeader(r));
    }

    /** The four operator blocks, in order 1,3,2,4 from offset 5. */
    method WriteOperators(data: array<byte>, ghost r: FM)
      requires Valid() && r == Value() && RecordSize <= data.Length
      modifies data
      ensures data[..] == Splice(old(data[..]), OpBase, EncodeOperators(r))
    {
      ghost var d := data[..];
      OP[0].Write(data, 5);
      OP[2].Write(data, 11);
      OP[1].Write(data, 17);
      OP[3].Write(data, 23);
      GemsFMProofs.OperatorSplices(d, r);
    }

    /** The four frequencies, in order A2, A8, A9, AA from offset 29. */
    method WriteFreqs(data: array<byte>, ghost r: FM)
      requires Valid() && r == Value() && RecordSize <= data.Length
      modifies data
      ensures data[..] == Splice(old(data[..]), FreqBase, EncodeFreqs(r))
    {
      ghost var d := data[..];
      WriteFreq(data, 29, CH3_F[3]);
      WriteFreq(data, 31, CH3_F[2]);
      WriteFreq(data, 33, CH3_F[0]);
      WriteFreq(data, 35, CH3_F[1]);
      GemsFMProofs.FreqSplices(d, r);
    }

    /** One frequency as its two bytes at data[at..]. */
    static method WriteFreq(data: array<byte>, at: nat, f: Freq)
      requires at + 2 <= data.Length
      modifies data
      ensures data[..] == Splice(old(data[..]), at, FreqBytes(f))
    {
      data[at], data[at + 1] := f.first, f.second;
      assert data[..] == Splice(old(data[..]), at, FreqBytes(f));
    }

    /** The key byte (unk6 above the key-on nibble) and unk7. */
    method WriteKey(data: array<byte>, ghost r: FM)
      requires Valid() && r == Value() && RecordSize <= data.Length
      modifies data
      ensures data[..] == Splice(old(data[..]), KeyAt, [KeyByte(r.unk6, r.KEY), r.unk7])
    {
      data[KeyAt], data[Unk7At] := KeyByte(unk6, KEY), unk7;
      assert data[..] == Splice(old(data[..]), KeyAt, [KeyByte(unk6, KEY), unk7]);
    }

    /** Whether operator `op` (1 to 4) is keyed on: bit op-1 of KEY, which is
        the same bit of the key byte Write stores at offset 37. */
    function IsOn(op: int): (on: bool)
      requires Valid() && 1 <= op <= 4
      reads this, OP
      ensures on <==> Bit(Encode(Value())[KeyAt], op - 1)
    {
      EncodeSections(Value());
      GemsFMProofs.KeyByteBits(unk6, KEY, op - 1);
      Bit(KEY, op - 1)
    }
  }
}
