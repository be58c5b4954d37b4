/** The GEMS FM operator record: six register bytes (YM2612 registers 30H,
    40H, 50H, 60H, 70H and 80H of one operator), each split into bitfields
    whose widths add up to eight. Bits the format does not name are kept in
    unk* fields so that they survive a decode/encode round trip. */
module GemsOperator {
  import opened Bitfield

  /** Field widths of each operator byte, most significant field first. */
  const Reg30: seq<nat> := [1, 3, 4]  // unk1, DT (detune), MUL (multiply)
  const Reg40: seq<nat> := [1, 7]     // unk2, TL (total level)
  const Reg50: seq<nat> := [2, 1, 5]  // RS (rate scale), unk3, AR (attack rate)
  const Reg60: seq<nat> := [1, 2, 5]  // AM (amplitude modulation), unk4, DR (decay rate)
  const Reg70: seq<nat> := [3, 5]     // unk5, SDR (sustain decay rate)
  const Reg80: seq<nat> := [4, 4]     // SL (sustain level), RR (release rate)

  /** Number of bytes an operator occupies in a GEMS record. */
  const OperatorSize: nat := 6

  /** The typed view of one operator: one byte per field, as in the source. */
  datatype Operator = Operator(
    unk1: byte, DT: byte, MUL: byte,
    unk2: byte, TL: byte,
    RS: byte, unk3: byte, AR: byte,
    AM: byte, unk4: byte, DR: byte,
    unk5: byte, SDR: byte,
    SL: byte, RR: byte)

  /** The operator with every field zero. */
  const ZeroOperator: Operator := Operator(0, 0, 0, 0, 0, 0, 0, 0, 0, 0, 0, 0, 0, 0, 0)

  /** Every field holds a value that fits its declared width. */
  predicate Fits(op: Operator)
  {
    && op.unk1 < 2 && op.DT < 8 && op.MUL < 16
    && op.unk2 < 2 && op.TL < 128
    && op.RS < 4 && op.unk3 < 2 && op.AR < 32
    && op.AM < 2 && op.unk4 < 4 && op.DR < 32
    && op.unk5 < 8 && op.SDR < 32
    && op.SL < 16 && op.RR < 16
  }

  lemma LayoutsFillBytes()
    ensures Width(Reg30) == 8 && Width(Reg40) == 8 && Width(Reg50) == 8
    ensures Width(Reg60) == 8 && Width(Reg70) == 8 && Width(Reg80) == 8
    ensures Pow2(8) == 256
  {
  }

  /** Splits the six register bytes into their fields; every field read
      fits its declared width. */
  function Decode(b: seq<byte>): (op: Operator)
    requires |b| == OperatorSize
    ensures Fits(op)
  {
    LayoutsFillBytes();
    var r30, r40, r50 := Fields(b[0], Reg30), Fields(b[1], Reg40), Fields(b[2], Reg50);
    var r60, r70, r80 := Fields(b[3], Reg60), Fields(b[4], Reg70), Fields(b[5], Reg80);
    Operator(r30[0], r30[1], r30[2],
             r40[0], r40[1],
             r50[0], r50[1], r50[2],
             r60[0], r60[1], r60[2],
             r70[0], r70[1],
             r80[0], r80[1])
  }

  /** Packs the fields into the six register bytes, one byte per register. */
  function Encode(op: Operator): (b: seq<byte>)
    ensures |b| == OperatorSize
  {
    LayoutsFillBytes();
    [ Pack([op.unk1, op.DT, op.MUL], Reg30),
      Pack([op.unk2, op.TL], Reg40),
      Pack([op.RS, op.unk3, op.AR], Reg50),
      Pack([op.AM, op.unk4, op.DR], Reg60),
      Pack([op.unk5, op.SDR], Reg70),
      Pack([op.SL, op.RR], Reg80) ]
  }

  /** Every field cut to its declared width: what Encode keeps of an operator. */
  function Normalized(op: Operator): (n: Operator)
    ensures Fits(n)
  {
    Operator(Low(op.unk1, 1), Low(op.DT, 3), Low(op.MUL, 4),
             Low(op.unk2, 1), Low(op.TL, 7),
             Low(op.RS, 2), Low(op.unk3, 1), Low(op.AR, 5),
             Low(op.AM, 1), Low(op.unk4, 2), Low(op.DR, 5),
             Low(op.unk5, 3), Low(op.SDR, 5),
             Low(op.SL, 4), Low(op.RR, 4))
  }

  /** An operator whose fields fit their widths is its own normal form, and
      only such an operator is. */
  lemma NormalizedIffFits(op: Operator)
    ensures Normalized(op) == op <==> Fits(op)
  {
  }

  /** Bit-exact round trip: decoding any six bytes and encoding the result
      gives the same six bytes back, reserved bits included. */
  lemma EncodeDecode(b: seq<byte>)
    requires |b| == OperatorSize
    ensures Encode(Decode(b)) == b
  {
    LayoutsFillBytes();
    var op := Decode(b);
    var r30, r40, r50 := Unpack(b[0], Reg30), Unpack(b[1], Reg40), Unpack(b[2], Reg50);
    var r60, r70, r80 := Unpack(b[3], Reg60), Unpack(b[4], Reg70), Unpack(b[5], Reg80);
    assert [op.unk1, op.DT, op.MUL] == r30;
    assert [op.unk2, op.TL] == r40;
    assert [op.RS, op.unk3, op.AR] == r50;
    assert [op.AM, op.unk4, op.DR] == r60;
    assert [op.unk5, op.SDR] == r70;
    assert [op.SL, op.RR] == r80;
    PackUnpack(b[0], Reg30);
    PackUnpack(b[1], Reg40);
    PackUnpack(b[2], Reg50);
    PackUnpack(b[3], Reg60);
    PackUnpack(b[4], Reg70);
    PackUnpack(b[5], Reg80);
  }

  /** Encoding then decoding gives every field back cut to its width: a
      value wider than its field is truncated and never reaches the bits of
      a neighbouring field. */
  lemma DecodeEncode(op: Operator)
    ensures Decode(Encode(op)) == Normalized(op)
    ensures Fits(op) ==> Decode(Encode(op)) == op
  {
    var b := Encode(op);
    ThreeFields(op.unk1, op.DT, op.MUL, Reg30);
    TwoFields(op.unk2, op.TL, Reg40);
    ThreeFields(op.RS, op.unk3, op.AR, Reg50);
    ThreeFields(op.AM, op.unk4, op.DR, Reg60);
    TwoFields(op.unk5, op.SDR, Reg70);
    TwoFields(op.SL, op.RR, Reg80);
    var r30, r40, r50 := Unpack(b[0], Reg30), Unpack(b[1], Reg40), Unpack(b[2], Reg50);
    var r60, r70, r80 := Unpack(b[3], Reg60), Unpack(b[4], Reg70), Unpack(b[5], Reg80);
    assert r30 == [Low(op.unk1, 1), Low(op.DT, 3), Low(op.MUL, 4)];
    assert r40 == [Low(op.unk2, 1), Low(op.TL, 7)];
    assert r50 == [Low(op.RS, 2), Low(op.unk3, 1), Low(op.AR, 5)];
    assert r60 == [Low(op.AM, 1), Low(op.unk4, 2), Low(op.DR, 5)];
    assert r70 == [Low(op.unk5, 3), Low(op.SDR, 5)];
    assert r80 == [Low(op.SL, 4), Low(op.RR, 4)];
    assert Decode(b) == Operator(r30[0], r30[1], r30[2], r40[0], r40[1], r50[0], r50[1], r50[2],
                                 r60[0], r60[1], r60[2], r70[0], r70[1], r80[0], r80[1]);
    NormalizedIffFits(op);
  }

  lemma ThreeFields(x: nat, y: nat, z: nat, ws: seq<nat>)
    requires |ws| == 3
    ensures Unpack(Pack([x, y, z], ws), ws) == [Low(x, ws[0]), Low(y, ws[1]), Low(z, ws[2])]
    ensures Pack([x, y, z], ws) == Pack([Low(x, ws[0]), Low(y, ws[1]), Low(z, ws[2])], ws)
  {
    UnpackPack([x, y, z], ws);
    PackMasks([x, y, z], ws);
  }

  lemma TwoFields(x: nat, y: nat, ws: seq<nat>)
    requires |ws| == 2
    ensures Unpack(Pack([x, y], ws), ws) == [Low(x, ws[0]), Low(y, ws[1])]
    ensures Pack([x, y], ws) == Pack([Low(x, ws[0]), Low(y, ws[1])], ws)
  {
    UnpackPack([x, y], ws);
    PackMasks([x, y], ws);
  }

  /** Out-of-range field values are masked, not rejected: an operator
      encodes to the same bytes as its normal form. */
  lemma EncodeNormalized(op: Operator)
    ensures Encode(Normalized(op)) == Encode(op)
  {
    ThreeFields(op.unk1, op.DT, op.MUL, Reg30);
    TwoFields(op.unk2, op.TL, Reg40);
    ThreeFields(op.RS, op.unk3, op.AR, Reg50);
    ThreeFields(op.AM, op.unk4, op.DR, Reg60);
    TwoFields(op.unk5, op.SDR, Reg70);
    TwoFields(op.SL, op.RR, Reg80);
  }
}

/** The operator as an object whose fields the record's Set fills in place. */
module GemsOperatorObject {
  import opened Bitfield
  import opened Buffer
  import opened GemsOperator

  /** The source's GemsFMOperator: one byte per field, filled from and
      written back to six bytes of a caller's buffer. */
  class GemsFMOperator {
    var unk1: byte
    var DT: byte
    var MUL: byte
    var unk2: byte
    var TL: byte
    var RS: byte
    var unk3: byte
    var AR: byte
    var AM: byte
    var unk4: byte
    var DR: byte
    var unk5: byte
    var SDR: byte
    var SL: byte
    var RR: byte

    /** The fields as one value. */
    function Value(): Operator
      reads this
    {
      Operator(unk1, DT, MUL, unk2, TL, RS, unk3, AR, AM, unk4, DR, unk5, SDR, SL, RR)
    }

    /** An operator with every field zero, as a zero-filled struct. */
    constructor ()
      ensures Value() == ZeroOperator
    {
      unk1, DT, MUL, unk2, TL := 0, 0, 0, 0, 0;
      RS, unk3, AR, AM, unk4 := 0, 0, 0, 0, 0;
      DR, unk5, SDR, SL, RR := 0, 0, 0, 0, 0;
    }

    /** Overwrites every field from the six bytes at data[at..], one
        register byte at a time. */
    method Set(data: seq<byte>, at: nat)
      requires at + OperatorSize <= |data|
      modifies this
      ensures Value() == Decode(data[at..at + OperatorSize])
    {
      SetReg30(data[at]);
      SetReg40(data[at + 1]);
      SetReg50(data[at + 2]);
      SetReg60(data[at + 3]);
      SetReg70(data[at + 4]);
      SetReg80(data[at + 5]);
    }

    /** Each SetRegNN overwrites the fields of register NN from one byte and
        leaves every other field as it was. */
    method SetReg30(b: byte)
      modifies this
      ensures Value() == old(Value()).(unk1 := Fields(b, Reg30)[0], DT := Fields(b, Reg30)[1], MUL := Fields(b, Reg30)[2])
    {
      LayoutsFillBytes();
      var f := Fields(b, Reg30);
      unk1, DT, MUL := f[0], f[1], f[2];
    }

    method SetReg40(b: byte)
      modifies this
      ensures Value() == old(Value()).(unk2 := Fields(b, Reg40)[0], TL := Fields(b, Reg40)[1])
    {
      LayoutsFillBytes();
      var f := Fields(b, Reg40);
      unk2, TL := f[0], f[1];
    }

    method SetReg50(b: byte)
      modifies this
      ensures Value() == old(Value()).(RS := Fields(b, Reg50)[0], unk3 := Fields(b, Reg50)[1], AR := Fields(b, Reg50)[2])
    {
      LayoutsFillBytes();
      var f := Fields(b, Reg50);
      RS, unk3, AR := f[0], f[1], f[2];
    }

    method SetReg60(b: byte)
      modifies this
      ensures Value() == old(Value()).(AM := Fields(b, Reg60)[0], unk4 := Fields(b, Reg60)[1], DR := Fields(b, Reg60)[2])
    {
      LayoutsFillBytes();
      var f := Fields(b, Reg60);
      AM, unk4, DR := f[0], f[1], f[2];
    }

    method SetReg70(b: byte)
      modifies this
      ensures Value() == old(Value()).(unk5 := Fields(b, Reg70)[0], SDR := Fields(b, Reg70)[1])
    {
      LayoutsFillBytes();
      var f := Fields(b, Reg70);
      unk5, SDR := f[0], f[1];
    }

    method SetReg80(b: byte)
      modifies this
      ensures Value() == old(Value()).(SL := Fields(b, Reg80)[0], RR := Fields(b, Reg80)[1])
    {
      LayoutsFillBytes();
      var f := Fields(b, Reg80);
      SL, RR := f[0], f[1];
    }

    /** Writes the six register bytes at data[at..]; no other byte changes. */
    method Write(data: array<byte>, at: nat)
      requires at + OperatorSize <= data.Length
      modifies data
      ensures data[..] == Splice(old(data[..]), at, Encode(Value()))
    {
      LayoutsFillBytes();
      var f30: seq<nat> := [unk1, DT, MUL];
      var f40: seq<nat> := [unk2, TL];
      var f50: seq<nat> := [RS, unk3, AR];
      var f60: seq<nat> := [AM, unk4, DR];
      var f70: seq<nat> := [unk5, SDR];
      var f80: seq<nat> := [SL, RR];
      data[at] := Pack(f30, Reg30);
      data[at + 1] := Pack(f40, Reg40);
      data[at + 2] := Pack(f50, Reg50);
      data[at + 3] := Pack(f60, Reg60);
      data[at + 4] := Pack(f70, Reg70);
      data[at + 5] := Pack(f80, Reg80);
      assert data[..] == Splice(old(data[..]), at, Encode(Value()));
    }
  }
}
