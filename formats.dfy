/** The format registry of the instrument converter: a closed set of nine
    external instrument layouts, each with a numeric id and a fixed size,
    and the per-format readers and writers the converter dispatches to.

    The byte layouts of the formats other than GEMS are not part of this
    model: each format's reader and writer is a parameter (`Codecs`), of
    which the model asks only that writers produce the format's size. */
module InstrumentFormats {
  import opened Bitfield
  import GemsFMRecord

  datatype Option<T> = None | Some(value: T)

  /** The source's enum, in declaration order (ids 0 to 8). DMP is the
      51-byte version-5 layout and DMP0 the 49-byte version-0 layout. */
  datatype Format = GEMS | TYI | TFI | EIF | Y12 | VGI | DMP | DMP0 | SMPS

  const FormatCount: nat := 9

  /** The enum value of a format. */
  function Id(f: Format): (id: nat)
    ensures id < FormatCount
  {
    match f
    case GEMS => 0
    case TYI => 1
    case TFI => 2
    case EIF => 3
    case Y12 => 4
    case VGI => 5
    case DMP => 6
    case DMP0 => 7
    case SMPS => 8
  }

  /** The format an id names; None for an id outside the enum. */
  function FromId(id: int): (f: Option<Format>)
    ensures f.Some? <==> 0 <= id < FormatCount
    ensures f.Some? ==> Id(f.value) == id
  {
    if id == 0 then Some(GEMS)
    else if id == 1 then Some(TYI)
    else if id == 2 then Some(TFI)
    else if id == 3 then Some(EIF)
    else if id == 4 then Some(Y12)
    else if id == 5 then Some(VGI)
    else if id == 6 then Some(DMP)
    else if id == 7 then Some(DMP0)
    else if id == 8 then Some(SMPS)
    else None
  }

  /** Ids and formats are in one-to-one correspondence. */
  lemma IdRoundTrip(f: Format)
    ensures FromId(Id(f)) == Some(f)
  {
  }

  /** Distinct formats have distinct ids. */
  lemma IdInjective(f: Format, g: Format)
    ensures Id(f) == Id(g) <==> f == g
  {
    IdRoundTrip(f);
    IdRoundTrip(g);
  }

  /** The fixed number of bytes of one instrument in each format. */
  function Size(f: Format): (n: nat)
    ensures n > 0
  {
    match f
    case GEMS => 39
    case TYI => 32
    case TFI => 42
    case EIF => 29
    case Y12 => 128
    case VGI => 43
    case DMP => 51
    case DMP0 => 49
    case SMPS => 25
  }

  /** FormatSize by id: the format's size, or 0 for an id outside the enum. */
  function FormatSize(id: int): (n: nat)
    ensures n > 0 <==> FromId(id).Some?
    ensures FromId(id).Some? ==> n == Size(FromId(id).value)
  {
    match FromId(id)
    case None => 0
    case Some(f) => Size(f)
  }

  /** No two formats share a size, so a buffer's length alone tells the formats apart. */
  lemma SizesDistinct(f: Format, g: Format)
    ensures Size(f) == Size(g) <==> f == g
  {
  }

  /** The GEMS size is the length of the native GEMS FM record. */
  lemma GemsSizeIsRecord()
    ensures Size(GEMS) == GemsFMRecord.RecordSize
    ensures FormatSize(Id(GEMS)) == GemsFMRecord.RecordSize
  {
  }

  /** The two DMP layouts are the only ones read by a reader that may refuse. */
  predicate IsDMP(f: Format)
  {
    f == DMP || f == DMP0
  }

  /** One register dump of an operator (YM2612 registers 30H to 90H). */
  datatype RawOperator = RawOperator(
    reg30: byte, reg40: byte, reg50: byte, reg60: byte,
    reg70: byte, reg80: byte, reg90: byte)

  const ZeroRawOperator: RawOperator := RawOperator(0, 0, 0, 0, 0, 0, 0)

  /** The converter's canonical instrument: four operators in order 1,2,3,4,
      the channel registers, and the channel-3 frequencies in order
      A9, AA, A8, A2. */
  datatype Raw = Raw(
    op: seq<RawOperator>,
    regB0: byte, regB4: byte, reg22: byte, reg28: byte, reg27: byte,
    CH3_F: seq<int>)

  /** A 16-bit signed value (the source's `short`). */
  predicate IsShort(x: int)
  {
    -0x8000 <= x < 0x8000
  }

  /** The fixed array lengths and element ranges of the source's struct. */
  predicate Shaped(r: Raw)
  {
    |r.op| == 4 && |r.CH3_F| == 4 && forall i :: 0 <= i < 4 ==> IsShort(r.CH3_F[i])
  }

  /** The per-format converters: a reader for every format whose reader
      cannot fail, the DMP reader (which detects the version from the
      buffer and may refuse it), and a writer for every format. */
  datatype Codecs = Codecs(
    reader: Format -> seq<byte> -> Raw,
    readDMP: seq<byte> -> Option<Raw>,
    writer: Format -> Raw -> seq<byte>)

  /** Writers fill exactly their format's size, and readers produce shaped instruments. */
  ghost predicate Conforming(c: Codecs)
  {
    && (forall f, r :: |c.writer(f)(r)| == Size(f))
    && (forall f, s :: Shaped(c.reader(f)(s)))
    && (forall s :: c.readDMP(s).Some? ==> Shaped(c.readDMP(s).value))
  }

  /** What Import by id reads: nothing for an id outside the enum; for
      either DMP id, whatever the DMP reader accepts; otherwise the format's
      reader applied to the format's size of bytes. */
  function ImportResult(id: int, data: seq<byte>, c: Codecs): (r: Option<Raw>)
    requires Readable(id, data)
    ensures r.Some? ==> 0 <= id < FormatCount
    ensures r.Some? ==> if id == 6 || id == 7 then r == c.readDMP(data)
                        else r.value == c.reader(FromId(id).value)(data[..FormatSize(id)])
  {
    match FromId(id)
    case None => None
    case Some(f) =>
      if IsDMP(f) then c.readDMP(data) else Some(c.reader(f)(data[..Size(f)]))
  }

  /** The caller supplies at least the format's size of bytes, except for
      DMP, whose reader decides from the version how many it reads. */
  predicate Readable(id: int, data: seq<byte>)
  {
    FromId(id).Some? && !IsDMP(FromId(id).value) ==> Size(FromId(id).value) <= |data|
  }

  /** What Export by id writes: nothing for an id outside the enum,
      otherwise the format's writer (DMP the version-5 layout, DMP0 the
      version-0 layout). */
  function ExportResult(id: int, r: Raw, c: Codecs): (b: Option<seq<byte>>)
    requires Conforming(c)
    ensures b.Some? <==> FromId(id).Some?
    ensures b.Some? ==> |b.value| == FormatSize(id)
  {
    match FromId(id)
    case None => None
    case Some(f) => Some(c.writer(f)(r))
  }

  /** Import by id fails exactly for an id outside the enum, and for a DMP
      id whose buffer the DMP reader refuses (an unsupported version). */
  lemma ImportFailsIff(id: int, data: seq<byte>, c: Codecs)
    requires Readable(id, data)
    ensures ImportResult(id, data, c).None? <==>
              (id < 0 || id >= FormatCount || ((id == 6 || id == 7) && c.readDMP(data).None?))
  {
    if 0 <= id < FormatCount {
      var f := FromId(id).value;
      assert IsDMP(f) <==> id == 6 || id == 7;
    }
  }

  /** A format's reader undoes its writer on every shaped instrument. */
  ghost predicate RoundTrips(c: Codecs, f: Format)
  {
    if IsDMP(f) then forall r :: Shaped(r) ==> c.readDMP(c.writer(f)(r)) == Some(r)
    else forall r :: Shaped(r) ==> c.reader(f)(c.writer(f)(r)) == r
  }

  /** Dispatch by id adds nothing to the per-format converters: exporting
      by a format's id and importing the result by the same id gives the
      instrument back whenever that format's converters round-trip. */
  lemma ExportImport(f: Format, r: Raw, c: Codecs)
    requires Conforming(c) && RoundTrips(c, f) && Shaped(r)
    ensures Readable(Id(f), ExportResult(Id(f), r, c).value)
    ensures ImportResult(Id(f), ExportResult(Id(f), r, c).value, c) == Some(r)
  {
    IdRoundTrip(f);
    var b := c.writer(f)(r);
    assert ExportResult(Id(f), r, c).value == b;
    assert b[..Size(f)] == b;
  }

  /** The nine format names: an injective table indexed by id. */
  predicate NameTable(names: seq<string>)
  {
    |names| == FormatCount && forall i, j :: 0 <= i < j < |names| ==> names[i] != names[j]
  }

  /** FormatName: the name of an id, None for an id outside the enum. */
  function FormatName(id: int, names: seq<string>): (n: Option<string>)
    requires |names| == FormatCount
    ensures n.Some? <==> FromId(id).Some?
    ensures n.Some? ==> n.value in names
  {
    if 0 <= id < FormatCount then Some(names[id]) else None
  }

  /** FormatByName: the id whose name is `name`, or -1 when no format has it. */
  function FormatByName(name: string, names: seq<string>): (id: int)
    requires |names| == FormatCount
    ensures id == -1 || FromId(id).Some?
    ensures id == -1 <==> name !in names
    ensures id != -1 ==> names[id] == name && forall j :: 0 <= j < id ==> names[j] != name
  {
    FindFrom(name, names, 0)
  }

  /** The first index from `i` on holding `name`, or -1. */
  function FindFrom(name: string, names: seq<string>, i: nat): (k: int)
    requires i <= |names|
    ensures k == -1 <==> name !in names[i..]
    ensures k != -1 ==> i <= k < |names| && names[k] == name && forall j :: i <= j < k ==> names[j] != name
    decreases |names| - i
  {
    if i == |names| then -1
    else if names[i] == name then i
    else FindFrom(name, names, i + 1)
  }

  /** Looking up a format's name gives its id back, and no name outside the table matches. */
  lemma NameRoundTrip(id: int, names: seq<string>)
    requires NameTable(names) && 0 <= id < FormatCount
    ensures FormatByName(FormatName(id, names).value, names) == id
  {
  }
}
