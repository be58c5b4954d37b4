/** Sub-byte bitfields described by a width table.

    A register byte of the sound chip is split into consecutive fields. A
    layout lists the field widths with the FIRST field in the MOST significant
    bits, the way the instrument header lists them (30H: unk1:1, DT:3, MUL:4).
    Decoding extracts every field with a shift and a mask; encoding masks every
    field to its width and ORs the shifted fields together. Reserved bits are
    ordinary fields of the layout, so they round-trip like the named ones.

    Shifts and masks are defined by halving and doubling, so that every proof
    about them stays in linear arithmetic.
 */
module Bitfield {

  /** An unsigned 8-bit value (the source's BYTE). */
  type byte = x: nat | x < 256

  /** One frequency value of channel 3 (the source's `short`), kept as the
      two bytes it occupies in the record and moved as a unit. */
  datatype Freq = Freq(first: byte, second: byte)

  function Pow2(n: nat): (p: nat)
    ensures p >= 1
  {
    if n == 0 then 1 else 2 * Pow2(n - 1)
  }

  /** x << n */
  function Shl(x: nat, n: nat): nat
  {
    if n == 0 then x else 2 * Shl(x, n - 1)
  }

  /** x >> n */
  function Shr(x: nat, n: nat): nat
  {
    if n == 0 then x else Shr(x / 2, n - 1)
  }

  /** x & (2^n - 1): the low n bits of x. */
  function Low(x: nat, n: nat): (r: nat)
    ensures r < Pow2(n)
    ensures x < Pow2(n) ==> r == x
  {
    if n == 0 then 0 else x % 2 + 2 * Low(x / 2, n - 1)
  }

  /** Total number of bits a layout occupies. */
  function Width(ws: seq<nat>): nat
  {
    if ws == [] then 0 else ws[0] + Width(ws[1..])
  }

  /** Splits the low Width(ws) bits of `b` into fields, most significant
      first: field i is (b >> (bits below it)) & mask(ws[i]). */
  function Unpack(b: nat, ws: seq<nat>): (fs: seq<nat>)
    ensures |fs| == |ws|
    ensures forall i :: 0 <= i < |ws| ==> fs[i] < Pow2(ws[i])
  {
    if ws == [] then []
    else [Low(Shr(b, Width(ws[1..])), ws[0])] + Unpack(Low(b, Width(ws[1..])), ws[1..])
  }

  /** The fields of one byte-wide layout, each as a byte: Unpack with its
      result narrowed to bytes, which the field bounds of Unpack allow. */
  function Fields(b: byte, ws: seq<nat>): (fs: seq<byte>)
    requires Width(ws) == 8
    ensures fs == Unpack(b, ws)
  {
    var us := Unpack(b, ws);
    forall i | 0 <= i < |ws| ensures us[i] < 256 {
      FieldWithin(ws, i);
      Pow2Monotone(ws[i], 8);
    }
    us
  }

  lemma {:induction false} FieldWithin(ws: seq<nat>, i: nat)
    requires i < |ws|
    ensures ws[i] <= Width(ws)
  {
    if i > 0 {
      FieldWithin(ws[1..], i - 1);
    }
  }

  lemma {:induction false} Pow2Monotone(a: nat, b: nat)
    requires a <= b
    ensures Pow2(a) <= Pow2(b)
  {
    if a < b {
      Pow2Monotone(a, b - 1);
    }
  }

  /** Assembles fields into one value, most significant field first: the OR
      of (fs[i] & mask(ws[i])) << (bits below field i). Every field is
      masked to its width, so the result fits the layout. */
  function Pack(fs: seq<nat>, ws: seq<nat>): (b: nat)
    requires |fs| == |ws|
    ensures b < Pow2(Width(ws))
  {
    if ws == [] then 0
    else
      var rest := Pack(fs[1..], ws[1..]);
      ShlBelow(Low(fs[0], ws[0]), ws[0], rest, Width(ws[1..]));
      Shl(Low(fs[0], ws[0]), Width(ws[1..])) + rest
  }

  /** Each field value cut down to its width: what encoding keeps of it. */
  function Masked(fs: seq<nat>, ws: seq<nat>): (ms: seq<nat>)
    requires |fs| == |ws|
    ensures |ms| == |ws|
    ensures forall i :: 0 <= i < |ws| ==> ms[i] == Low(fs[i], ws[i])
  {
    seq(|ws|, i requires 0 <= i < |ws| => Low(fs[i], ws[i]))
  }

  /** A field of m bits shifted above n bits of lower content fits m + n bits. */
  lemma {:induction false} ShlBelow(x: nat, m: nat, r: nat, n: nat)
    requires x < Pow2(m) && r < Pow2(n)
    ensures Shl(x, n) + r < Pow2(m + n)
  {
    if n > 0 {
      ShlBelow(x, m, r / 2, n - 1);
      assert Pow2(m + n) == 2 * Pow2(m + n - 1);
    }
  }

  /** Shifting back down past the lower content recovers the field. */
  lemma {:induction false} ShrShl(x: nat, r: nat, n: nat)
    requires r < Pow2(n)
    ensures Shr(Shl(x, n) + r, n) == x
  {
    if n > 0 {
      assert (Shl(x, n) + r) / 2 == Shl(x, n - 1) + r / 2;
      ShrShl(x, r / 2, n - 1);
    }
  }

  /** Masking off the field above leaves the lower content. */
  lemma {:induction false} LowShl(x: nat, r: nat, n: nat)
    requires r < Pow2(n)
    ensures Low(Shl(x, n) + r, n) == r
  {
    if n > 0 {
      assert (Shl(x, n) + r) / 2 == Shl(x, n - 1) + r / 2;
      LowShl(x, r / 2, n - 1);
    }
  }

  /** The high part shifted back up, ORed with the low part, is the value. */
  lemma {:induction false} ShlShrLow(x: nat, n: nat)
    ensures Shl(Shr(x, n), n) + Low(x, n) == x
  {
    if n > 0 {
      ShlShrLow(x / 2, n - 1);
    }
  }

  /** The part above n bits of a value that fits m + n bits fits m bits. */
  lemma {:induction false} ShrBelow(x: nat, m: nat, n: nat)
    requires x < Pow2(m + n)
    ensures Shr(x, n) < Pow2(m)
  {
    if n > 0 {
      assert Pow2(m + n) == 2 * Pow2(m + n - 1);
      ShrBelow(x / 2, m, n - 1);
    }
  }

  /** Decoding then encoding reproduces the original bits: the round trip
      holds for every value that fits the layout. */
  lemma {:induction false} PackUnpack(b: nat, ws: seq<nat>)
    requires b < Pow2(Width(ws))
    ensures Pack(Unpack(b, ws), ws) == b
  {
    if ws != [] {
      var n := Width(ws[1..]);
      var fs := Unpack(b, ws);
      ShrBelow(b, ws[0], n);
      assert fs[0] == Shr(b, n);
      assert fs[1..] == Unpack(Low(b, n), ws[1..]);
      PackUnpack(Low(b, n), ws[1..]);
      ShlShrLow(b, n);
    }
  }

  /** Encoding then decoding gives back every field masked to its width:
      no field ever spills into a neighbouring one. */
  lemma {:induction false} UnpackPack(fs: seq<nat>, ws: seq<nat>)
    requires |fs| == |ws|
    ensures Unpack(Pack(fs, ws), ws) == Masked(fs, ws)
  {
    if ws != [] {
      var n := Width(ws[1..]);
      var m := Low(fs[0], ws[0]);
      var rest := Pack(fs[1..], ws[1..]);
      var b := Pack(fs, ws);
      assert b == Shl(m, n) + rest;
      ShrShl(m, rest, n);
      LowShl(m, rest, n);
      assert Unpack(b, ws) == [Low(m, ws[0])] + Unpack(rest, ws[1..]);
      UnpackPack(fs[1..], ws[1..]);
      assert Masked(fs, ws) == [m] + Masked(fs[1..], ws[1..]);
    }
  }

  /** Encoding masks out-of-range field values: a value wider than its field
      is stored as its low bits, exactly as if it had been masked first. */
  lemma {:induction false} PackMasks(fs: seq<nat>, ws: seq<nat>)
    requires |fs| == |ws|
    ensures Pack(fs, ws) == Pack(Masked(fs, ws), ws)
  {
    if ws != [] {
      assert Masked(fs, ws)[1..] == Masked(fs[1..], ws[1..]);
      PackMasks(fs[1..], ws[1..]);
    }
  }

  /** Rewriting field i changes no other field's decoded value, and field i
      decodes to the new value cut to its width. */
  lemma NoBleed(fs: seq<nat>, ws: seq<nat>, i: nat, v: nat)
    requires |fs| == |ws| && i < |ws|
    ensures Unpack(Pack(fs[i := v], ws), ws)[i] == Low(v, ws[i])
    ensures forall j :: 0 <= j < |ws| && j != i ==>
              Unpack(Pack(fs[i := v], ws), ws)[j] == Unpack(Pack(fs, ws), ws)[j]
  {
    UnpackPack(fs, ws);
    UnpackPack(fs[i := v], ws);
  }

  /** Bit j of x is set. */
  predicate Bit(x: nat, j: nat)
  {
    Low(Shr(x, j), 1) == 1
  }

  /** The low n bits of a value are not disturbed by what is ORed in above them. */
  lemma {:induction false} BitAbove(h: nat, l: nat, n: nat, j: nat)
    requires j < n && l < Pow2(n)
    ensures Bit(Shl(h, n) + l, j) == Bit(l, j)
  {
    assert (Shl(h, n) + l) / 2 == Shl(h, n - 1) + l / 2;
    if j > 0 {
      BitAbove(h, l / 2, n - 1, j - 1);
    }
  }

  /** Masking to n bits keeps every bit below n. */
  lemma {:induction false} BitOfLow(x: nat, n: nat, j: nat)
    requires j < n
    ensures Bit(Low(x, n), j) == Bit(x, j)
  {
    var y := Low(x, n);
    assert y == x % 2 + 2 * Low(x / 2, n - 1);
    if j == 0 {
      assert Low(y, 1) == y % 2 && Low(x, 1) == x % 2;
    } else {
      assert y / 2 == Low(x / 2, n - 1);
      assert Shr(y, j) == Shr(y / 2, j - 1) && Shr(x, j) == Shr(x / 2, j - 1);
      BitOfLow(x / 2, n - 1, j - 1);
    }
  }

  /** A value of n bits is determined by its n bits. */
  lemma {:induction false} BitsDetermine(x: nat, y: nat, n: nat)
    requires x < Pow2(n) && y < Pow2(n)
    requires forall j :: 0 <= j < n ==> Bit(x, j) == Bit(y, j)
    ensures x == y
  {
    if n > 0 {
      assert Bit(x, 0) == Bit(y, 0);
      forall j | 0 <= j < n - 1 ensures Bit(x / 2, j) == Bit(y / 2, j) {
        assert Bit(x, j + 1) == Bit(y, j + 1);
      }
      BitsDetermine(x / 2, y / 2, n - 1);
    }
  }
}
