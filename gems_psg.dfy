/** The GEMS PSG instrument record: the instrument type followed by six
    envelope bytes, each a whole field copied straight through.

      offset 0  type
      offset 1  ND  noise data (low three bits used)
      offset 2  AR  attack rate
      offset 3  SL  sustain level  (upper nibble zero)
      offset 4  AL  attack level   (upper nibble zero)
      offset 5  DR  decay rate
      offset 6  RR  release rate */
module GemsPSGRecord {
  import opened Bitfield

  const PSGSize: nat := 7

  datatype PSG = PSG(kind: byte, ND: byte, AR: byte, SL: byte, AL: byte, DR: byte, RR: byte)

  /** SL and AL are four-bit levels stored in the low nibble of their byte. */
  predicate LevelsFit(p: PSG)
  {
    p.SL < 16 && p.AL < 16
  }

  function Encode(p: PSG): (s: seq<byte>)
    ensures |s| == PSGSize
  {
    [p.kind, p.ND, p.AR, p.SL, p.AL, p.DR, p.RR]
  }

  /** Reading a record keeps every byte: encoding what was read gives the
      same seven bytes back. */
  function Decode(s: seq<byte>): (p: PSG)
    requires |s| == PSGSize
    ensures Encode(p) == s
  {
    PSG(s[0], s[1], s[2], s[3], s[4], s[5], s[6])
  }

  /** Writing and reading back gives the same instrument, whatever its fields. */
  lemma DecodeEncode(p: PSG)
    ensures Decode(Encode(p)) == p
  {
  }

  /** A record's levels fit their nibble exactly when the upper nibbles of
      bytes 3 and 4 are zero, so Write never sets the reserved bits of a
      well-formed instrument and Set never invents them. */
  lemma LevelsOnDisk(s: seq<byte>)
    requires |s| == PSGSize
    ensures LevelsFit(Decode(s)) <==> Shr(s[3], 4) == 0 && Shr(s[4], 4) == 0
  {
    ShrZero(s[3], 4);
    ShrZero(s[4], 4);
  }

  lemma {:induction false} ShrZero(x: nat, n: nat)
    ensures Shr(x, n) == 0 <==> x < Pow2(n)
  {
    if n > 0 {
      ShrZero(x / 2, n - 1);
    }
  }
}

/** The PSG instrument as an object whose fields Set overwrites in place. */
module GemsPSGObject {
  import opened Bitfield
  import opened Buffer
  import opened GemsPSGRecord

  class GemsPSG {
    /** GemsInstrument::type, the byte at offset 0. */
    var kind: byte
    var ND: byte
    var AR: byte
    var SL: byte
    var AL: byte
    var DR: byte
    var RR: byte

    function Value(): PSG
      reads this
    {
      PSG(kind, ND, AR, SL, AL, DR, RR)
    }

    constructor ()
      ensures Value() == PSG(0, 0, 0, 0, 0, 0, 0)
    {
      kind, ND, AR, SL, AL, DR, RR := 0, 0, 0, 0, 0, 0, 0;
    }

    /** Overwrites every field from the seven bytes at the start of `data`. */
    method Set(data: seq<byte>)
      requires PSGSize <= |data|
      modifies this
      ensures Value() == Decode(data[..PSGSize])
    {
      kind, ND, AR, SL := data[0], data[1], data[2], data[3];
      AL, DR, RR := data[4], data[5], data[6];
    }

    /** Writes the seven-byte record at the start of `data`; no other byte changes. */
    method Write(data: array<byte>)
      requires PSGSize <= data.Length
      modifies data
      ensures data[..] == Splice(old(data[..]), 0, Encode(Value()))
    {
      data[0], data[1], data[2], data[3] := kind, ND, AR, SL;
      data[4], data[5], data[6] := AL, DR, RR;
      assert data[..] == Splice(old(data[..]), 0, Encode(Value()));
    }
  }
}
