/** The instrument converter as an object: its canonical register fields
    are overwritten by Import and written out by Export, dispatched by
    format id to the per-format converters. */
module InstrumentConverterObject {
  import opened Bitfield
  import opened Buffer
  import opened InstrumentFormats

  class InstrumentConverter {
    /** Operators in order 1,2,3,4. */
    var op: seq<RawOperator>
    var regB0: byte
    var regB4: byte
    var reg22: byte
    var reg28: byte
    var reg27: byte
    /** Channel-3 frequencies in order A9, AA, A8, A2. */
    var CH3_F: seq<int>

    function Value(): Raw
      reads this
    {
      Raw(op, regB0, regB4, reg22, reg28, reg27, CH3_F)
    }

    /** A converter with every register, operator and frequency zero. */
    constructor ()
      ensures Shaped(Value())
      ensures Value() == Raw([ZeroRawOperator, ZeroRawOperator, ZeroRawOperator, ZeroRawOperator],
                             0, 0, 0, 0, 0, [0, 0, 0, 0])
    {
      op := [ZeroRawOperator, ZeroRawOperator, ZeroRawOperator, ZeroRawOperator];
      regB0, regB4, reg22, reg28, reg27 := 0, 0, 0, 0, 0;
      CH3_F := [0, 0, 0, 0];
    }

    /** Overwrites every field with those of `r`. */
    method Assign(r: Raw)
      modifies this
      ensures Value() == r
    {
      op, CH3_F := r.op, r.CH3_F;
      regB0, regB4, reg22, reg28, reg27 := r.regB0, r.regB4, r.reg22, r.reg28, r.reg27;
    }

    /** ImportGems, ImportTYI, ..., ImportSMPS: reads the format's size of
        bytes with that format's reader. */
    method ImportFormat(f: Format, data: seq<byte>, c: Codecs)
      requires !IsDMP(f) && Size(f) <= |data|
      modifies this
      ensures Value() == c.reader(f)(data[..Size(f)])
    {
      Assign(c.reader(f)(data[..Size(f)]));
    }

    /** ImportDMP: a nonzero status when the DMP reader refuses the buffer's
        version, and otherwise the instrument it reads. */
    method ImportDMP(data: seq<byte>, c: Codecs) returns (status: int)
      modifies this
      ensures status != 0 <==> c.readDMP(data).None?
      ensures status == 0 ==> Some(Value()) == c.readDMP(data)
    {
      match c.readDMP(data)
      case None =>
        status := 1;
      case Some(r) =>
        Assign(r);
        status := 0;
    }

    /** Import by id: a nonzero status exactly when ImportResult has nothing
        to give (an id outside the enum, or a DMP buffer of an unsupported
        version); otherwise the instrument becomes what the id's reader
        reads. An unknown id leaves the instrument as it was. */
    method Import(format: int, data: seq<byte>, c: Codecs) returns (status: int)
      requires Readable(format, data)
      modifies this
      ensures status != 0 <==> ImportResult(format, data, c).None?
      ensures status == 0 ==> Some(Value()) == ImportResult(format, data, c)
      ensures FromId(format).None? ==> Value() == old(Value())
    {
      match FromId(format)
      case None =>
        status := 1;
      case Some(f) =>
        if IsDMP(f) {
          status := ImportDMP(data, c);
        } else {
          ImportFormat(f, data, c);
          status := 0;
        }
    }

    /** ExportGems, ..., ExportDMP (version 5), ExportDMPv0, ExportSMPS:
        writes the format's size of bytes at the start of `data`; no other
        byte changes. */
    method ExportFormat(f: Format, data: array<byte>, c: Codecs)
      requires Conforming(c) && Size(f) <= data.Length
      modifies data
      ensures data[..] == Splice(old(data[..]), 0, c.writer(f)(Value()))
    {
      var b := c.writer(f)(Value());
      forall i | 0 <= i < |b| {
        data[i] := b[i];
      }
      assert data[..] == Splice(old(data[..]), 0, b);
    }

    /** Export by id: a nonzero status exactly for an id outside the enum,
        which leaves the buffer untouched; otherwise the buffer starts with
        the FormatSize(format) bytes of ExportResult. */
    method Export(format: int, data: array<byte>, c: Codecs) returns (status: int)
      requires Conforming(c) && FormatSize(format) <= data.Length
      modifies data
      ensures status != 0 <==> FromId(format).None?
      ensures status == 0 ==> data[..] == Splice(old(data[..]), 0, ExportResult(format, Value(), c).value)
      ensures status != 0 ==> data[..] == old(data[..])
    {
      match FromId(format)
      case None =>
        status := 1;
      case Some(f) =>
        ExportFormat(f, data, c);
        status := 0;
    }
  }
}
