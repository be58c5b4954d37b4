# GEMS instrument records, modelled in Dafny

This project models the instrument codec of the GEMS Toolkit, declared in
`instruments.h`:

- **GEMS FM operator** (`GemsFMOperator`). Six YM2612 register bytes (30H, 40H, 50H, 60H, 70H, 80H).
  - Each byte splits into bitfields whose widths add up to eight.
  - Reserved bits are kept in `unk*` fields.
  - `Set` fills the fields from a buffer and `Write` packs them back.
- **GEMS FM instrument** (`GemsFM`). The 39-byte record:
  - the type byte;
  - four channel bytes;
  - four 6-byte operators, stored in operator order 1,3,2,4 but held in order 1,2,3,4;
  - four 2-byte channel-3 frequencies, stored as A2, A8, A9, AA but held as A9, AA, A8, A2;
  - the unk6/KEY byte;
  - unk7.

  `IsOn(op)` reads the key-on bit of an operator.
- **GEMS PSG instrument** (`GemsPSG`). The type byte and six whole-byte envelope fields.
- **The format registry of `InstrumentConverter`**:
  - nine format ids (GEMS, TYI, TFI, EIF, Y12, VGI, DMP, DMP0, SMPS);
  - their fixed sizes;
  - import and export dispatched by id, with a nonzero status for an unknown id and for a DMP buffer of an unsupported version;
  - format names looked up by id and by name.

Layout of the modules:

- The bitfield arithmetic (`Bitfield`) is written once. Fields are listed most significant first, as the header lists them.
- Every record codec is a pair of pure functions `Decode`/`Encode` with round-trip lemmas in both directions (`GemsOperator`, `GemsFMRecord` with `GemsFMProofs`, `GemsPSGRecord`).
- The source's structs are classes whose methods overwrite the fields in place (`Set`), or fill a caller's array (`Write`, `Export`). Each method is proved against the pure codec:
  - after `Set`, the object's `Value()` is `Decode` of the input bytes;
  - after `Write`, the array is the old array with `Encode(Value())` spliced in at the record's offset and no other byte changed (`Buffer.Splice`).
- `InstrumentFormats` holds the registry as pure functions. `InstrumentConverterObject` holds the converter object that dispatches to them.

Decisions where the header leaves room:

- **Field order.** The first field listed occupies the most significant bits, e.g. 30H is unk1 (bit 7), DT (bits 6-4), MUL (bits 3-0). This is the YM2612 register map the header's register names refer to.
- **Writing out-of-range fields.** The fields are plain bytes whose widths are given only in comments, and the body of `Write` is not part of this model. The model's `Write` masks each field to its width. Reading always yields in-range fields (`GemsOperator.Decode`, `GemsFMProofs.DecodeInRange`).
- **Channel-3 frequencies.** Each `short` is kept as the two bytes it occupies (`Bitfield.Freq`) and moved as a unit, since the header does not state its byte order.
- **The PSG record** is seven bytes: the `GemsInstrument` type byte at offset 0, then ND, AR, SL, AL, DR and RR in declaration order.
- **DMP import.** Import by either DMP id goes to the one DMP reader, which detects the version from the buffer. Export by id DMP writes the version-5 layout and by id DMP0 the version-0 layout.
- **Initial state.** The header declares no constructors. Every object of the model starts with every field zero, as a value-initialised struct does: operators, FM and PSG instruments and the converter alike.
- **Sentinels.** `FormatSize` of an unknown id is 0, `FormatName` of an unknown id is `None`, and `FormatByName` of an unknown name is -1.

## Model

| member | source | states |
|---|---|---|
| `Bitfield.Unpack` | instruments.h:35-60 | every field read from a register byte is below 2 to the power of its declared width |
| `Bitfield.Pack` | instruments.h:35-60 | the fields of a layout packed together fit in the layout's width (one byte for every layout here) |
| `Bitfield.PackUnpack` | instruments.h:35-60 | splitting a byte into its fields and packing them again gives the same byte, reserved bits included |
| `Bitfield.UnpackPack` | instruments.h:35-60 | packing fields and splitting the result gives back every field cut to its width: no field spills into a neighbour |
| `Bitfield.PackMasks` | instruments.h:35-60 | a value wider than its field is stored as its low bits, as if masked first |
| `Bitfield.NoBleed` | instruments.h:35-60 | rewriting one field changes no other field's decoded value |
| `Bitfield.BitsDetermine` | instruments.h:95 | an n-bit value is determined by its n bits |
| `GemsOperator.EncodeDecode` | instruments.h:35-63 | decoding any six operator bytes and encoding the result reproduces the six bytes exactly |
| `GemsOperator.DecodeEncode` | instruments.h:35-63 | encoding then decoding an operator gives it back with every field cut to its width, and unchanged when every field fits |
| `GemsOperator.Decode` | instruments.h:35-62 | the shift/mask split of the six register bytes, each field read fits its width: DT<8, MUL<16, TL<128, RS<4, AR<32, AM<2, DR<32, SDR<32, SL<16, RR<16 and the unk fields likewise; its inverse is Encode (EncodeDecode, DecodeEncode) |
| `GemsOperator.Encode` | instruments.h:35-63 | the fields packed into exactly six register bytes, one per register 30H to 80H; it undoes Decode on every byte string (EncodeDecode) |
| `GemsOperator.Normalized` | instruments.h:36-60 | every operator cut to its field widths fits those widths |
| `GemsOperator.NormalizedIffFits` | instruments.h:36-60 | an operator is its own normal form exactly when every field fits |
| `GemsOperator.EncodeNormalized` | instruments.h:36-60 | an operator and its normal form encode to the same bytes: out-of-range values are masked, not rejected |
| `GemsOperatorObject.GemsFMOperator.constructor` | instruments.h:33-64 | a fresh operator has every field zero |
| `GemsOperatorObject.GemsFMOperator.Set` | instruments.h:62 | after Set, the operator's fields are the decoding of the six bytes at the given offset |
| `GemsOperatorObject.GemsFMOperator.SetReg30` | instruments.h:35-38 | unk1, DT and MUL become the fields of the 30H byte and nothing else changes |
| `GemsOperatorObject.GemsFMOperator.SetReg40` | instruments.h:40-42 | unk2 and TL become the fields of the 40H byte and nothing else changes |
| `GemsOperatorObject.GemsFMOperator.SetReg50` | instruments.h:44-47 | RS, unk3 and AR become the fields of the 50H byte and nothing else changes |
| `GemsOperatorObject.GemsFMOperator.SetReg60` | instruments.h:49-52 | AM, unk4 and DR become the fields of the 60H byte and nothing else changes |
| `GemsOperatorObject.GemsFMOperator.SetReg70` | instruments.h:54-56 | unk5 and SDR become the fields of the 70H byte and nothing else changes |
| `GemsOperatorObject.GemsFMOperator.SetReg80` | instruments.h:58-60 | SL and RR become the fields of the 80H byte and nothing else changes |
| `GemsOperatorObject.GemsFMOperator.Write` | instruments.h:63 | Write stores the encoding of the operator's fields in the six bytes at the offset and changes no other byte |
| `GemsFMRecord.OpBlock` | instruments.h:89-90 | the on-disk block of each typed operator is the inverse of the 1,3,2,4 disk order |
| `GemsFMRecord.FreqPair` | instruments.h:92-93 | the on-disk slot of each typed frequency is the inverse of the 4,3,1,2 disk order |
| `GemsFMRecord.Decode` | instruments.h:66-99 | the 39-byte layout read into a record of four operators and four frequencies; Encode undoes it (GemsFMProofs.EncodeDecode) and every field it reads fits its width (GemsFMProofs.DecodeInRange) |
| `GemsFMRecord.Encode` | instruments.h:66-97 | an encoded FM instrument is exactly 39 bytes |
| `GemsFMRecord.EncodeSections` | instruments.h:66-97 | the header, operators, frequencies, key byte and unk7 of an encoded record sit at offsets 0, 5, 29, 37 and 38 |
| `GemsFMProofs.Offsets` | instruments.h:68-97 | operators 1,2,3,4 sit at 5, 17, 11, 23; frequencies A9, AA, A8, A2 at 33, 35, 31, 29; 1+4+24+8+1+1 = 39 bytes |
| `GemsFMProofs.EncodeOperatorAt` | instruments.h:89-90 | typed operator k is written to the six bytes of its disk block, so OP[1] goes to offset 17 and OP[2] to offset 11 |
| `GemsFMProofs.EncodeFreqAt` | instruments.h:92-93 | typed frequency k is written to the two bytes of its disk slot: CH3_F[0] at slot 2, [1] at 3, [2] at 1, [3] at 0 |
| `GemsFMProofs.HeaderRoundTrip` | instruments.h:68-87 | the type byte and the four channel bytes decode and re-encode to themselves |
| `GemsFMProofs.OperatorsRoundTrip` | instruments.h:89-90 | the 24 operator bytes decode into OP and re-encode, in the 1,3,2,4 order, to themselves |
| `GemsFMProofs.FreqsRoundTrip` | instruments.h:92-93 | the 8 frequency bytes are permuted into CH3_F and permuted back unchanged |
| `GemsFMProofs.KeyRoundTrip` | instruments.h:94-95 | the unk6/KEY byte decodes and re-encodes to itself |
| `GemsFMProofs.EncodeDecode` | instruments.h:66-97 | decoding any 39 bytes and encoding the result reproduces all 39 bytes |
| `GemsFMProofs.DecodeInRange` | instruments.h:68-96 | every field of a decoded FM instrument fits its declared width |
| `GemsFMProofs.DecodeEncode` | instruments.h:66-97 | encoding then decoding gives back every FM instrument whose fields fit their widths |
| `GemsFMProofs.KeyByteBits` | instruments.h:94-95 | the low four bits of the key byte are the bits of KEY, whatever unk6 holds |
| `GemsFMProofs.KeyFromOnFlags` | instruments.h:94-103 | the four key-on flags IsOn reads from the key byte determine a 4-bit KEY, whatever unk6 holds |
| `GemsFMProofs.KeyFromDisk` | instruments.h:94-95 | the decoded KEY is below 16 and has exactly the low four bits of byte 37 |
| `GemsFMProofs.DecodeByBlocks` | instruments.h:89-93 | reading the operator blocks and frequency pairs one by one in their disk order builds the record Decode reads |
| `GemsFMProofs.OperatorSplices` | instruments.h:89-90 | writing operators 1,3,2,4 one after the other from offset 5 writes the operator section |
| `GemsFMProofs.FreqSplices` | instruments.h:92-93 | writing A2, A8, A9, AA one after the other from offset 29 writes the frequency section |
| `GemsFMProofs.EncodeBySplices` | instruments.h:66-97 | writing the four sections one after the other writes the whole record |
| `GemsFMObject.GemsFM.constructor` | instruments.h:66-97 | a fresh instrument owns four distinct fresh operator objects, and every field, operator and frequency is zero |
| `GemsFMObject.GemsFM.Set` | instruments.h:99 | after Set, the instrument (operators included) is the decoding of the first 39 bytes of the buffer |
| `GemsFMObject.GemsFM.SetChannel1` | instruments.h:68-71 | unk1, LFO_on and LFO_val become the fields of byte 1 and nothing else changes |
| `GemsFMObject.GemsFM.SetChannel2` | instruments.h:73-75 | CH3 and unk2 become the fields of byte 2 and nothing else changes |
| `GemsFMObject.GemsFM.SetChannel3` | instruments.h:77-80 | unk3, FB and ALG become the fields of byte 3 and nothing else changes |
| `GemsFMObject.GemsFM.SetChannel4` | instruments.h:82-87 | L, R, AMS, unk4 and FMS become the fields of byte 4 and nothing else changes |
| `GemsFMObject.GemsFM.SetKey` | instruments.h:94-95 | unk6 and KEY become the fields of byte 37 and nothing else changes |
| `GemsFMObject.GemsFM.Write` | instruments.h:100 | Write stores the 39-byte encoding of the instrument at the start of the buffer and changes no other byte |
| `GemsFMObject.GemsFM.WriteHeader` | instruments.h:68-87 | the type and channel bytes are written at offsets 0-4 |
| `GemsFMObject.GemsFM.WriteOperators` | instruments.h:89-90 | the four operators are written at offsets 5-28 in order 1,3,2,4 |
| `GemsFMObject.GemsFM.WriteFreqs` | instruments.h:92-93 | the four frequencies are written at offsets 29-36 in order A2, A8, A9, AA |
| `GemsFMObject.GemsFM.WriteFreq` | instruments.h:93 | one frequency is written as its two bytes and no other byte changes |
| `GemsFMObject.GemsFM.WriteKey` | instruments.h:94-96 | the unk6/KEY byte and unk7 are written at offsets 37 and 38 |
| `GemsFMObject.GemsFM.IsOn` | instruments.h:102-103 | operator op is keyed on exactly when bit op-1 of the key byte Write stores is set |
| `GemsPSGRecord.Decode` | instruments.h:109-116 | a PSG record read from seven bytes encodes back to the same seven bytes |
| `GemsPSGRecord.Encode` | instruments.h:109-119 | the PSG record written as exactly seven bytes; Decode undoes it (DecodeEncode) |
| `GemsPSGRecord.DecodeEncode` | instruments.h:109-116 | writing then reading a PSG instrument gives it back, every field whole |
| `GemsPSGRecord.LevelsOnDisk` | instruments.h:113-114 | SL and AL fit their nibble exactly when the upper nibbles of bytes 3 and 4 are zero |
| `GemsPSGObject.GemsPSG.constructor` | instruments.h:109-120 | a fresh PSG instrument has every field zero |
| `GemsPSGObject.GemsPSG.Set` | instruments.h:118 | after Set, the fields are the decoding of the first seven bytes of the buffer |
| `GemsPSGObject.GemsPSG.Write` | instruments.h:119 | Write stores the seven-byte encoding at the start of the buffer and changes no other byte |
| `InstrumentFormats.Id` | instruments.h:145-156 | every format has an id from 0 to 8 |
| `InstrumentFormats.FromId` | instruments.h:145-156 | an id names a format exactly when it is 0 to 8, and the named format has that id |
| `InstrumentFormats.IdRoundTrip` | instruments.h:145-156 | every format is named by its own id |
| `InstrumentFormats.IdInjective` | instruments.h:145-156 | distinct formats have distinct ids |
| `InstrumentFormats.Size` | instruments.h:157-188 | every format has a positive size (39, 32, 42, 29, 128, 43, 51, 49, 25); no two share one (SizesDistinct) |
| `InstrumentFormats.FormatSize` | instruments.h:157-195 | the size by id is positive exactly for the nine ids, and is then that format's size (39, 32, 42, 29, 128, 43, 51, 49, 25) |
| `InstrumentFormats.SizesDistinct` | instruments.h:157-188 | no two formats share a size |
| `InstrumentFormats.GemsSizeIsRecord` | instruments.h:157 | the GEMS size is the 39 bytes of the native FM record |
| `InstrumentFormats.ImportResult` | instruments.h:190-192 | import by id succeeds only for ids 0 to 8, with the DMP reader's result for the DMP ids and the format's reader on the format's size of bytes otherwise |
| `InstrumentFormats.ExportResult` | instruments.h:193 | export by id produces bytes exactly for ids 0 to 8, and then exactly FormatSize(id) of them |
| `InstrumentFormats.ImportFailsIff` | instruments.h:190-192 | import by id fails exactly for an id outside 0 to 8 and for a DMP id whose buffer the DMP reader refuses |
| `InstrumentFormats.ExportImport` | instruments.h:190-193 | exporting and importing by the same id gives the instrument back whenever that format's reader undoes its writer |
| `InstrumentFormats.FormatName` | instruments.h:196 | an id has a name exactly when it is 0 to 8, and the name is one of the table's |
| `InstrumentFormats.FormatByName` | instruments.h:197 | the lookup gives -1 exactly for a name outside the table, and otherwise the first id with that name |
| `InstrumentFormats.FindFrom` | instruments.h:197 | the search from index i finds the first matching index at or after i, or -1 when none matches |
| `InstrumentFormats.NameRoundTrip` | instruments.h:196-197 | with distinct names, looking up the name of an id gives that id back |
| `InstrumentConverterObject.InstrumentConverter.constructor` | instruments.h:135-141 | a fresh converter has four operators and four 16-bit frequencies, and every register, operator and frequency is zero |
| `InstrumentConverterObject.InstrumentConverter.ImportFormat` | instruments.h:157-188 | a per-format import overwrites the instrument with what that format's reader reads |
| `InstrumentConverterObject.InstrumentConverter.ImportDMP` | instruments.h:181-182 | the status is nonzero exactly when the DMP reader refuses the buffer, and otherwise the instrument is what it reads |
| `InstrumentConverterObject.InstrumentConverter.Import` | instruments.h:190-192 | the status is nonzero exactly when ImportResult fails; otherwise the instrument is ImportResult; an unknown id leaves it unchanged |
| `InstrumentConverterObject.InstrumentConverter.ExportFormat` | instruments.h:157-188 | a per-format export writes that format's bytes at the start of the buffer and changes no other byte |
| `InstrumentConverterObject.InstrumentConverter.Export` | instruments.h:193 | the status is nonzero exactly for an unknown id, which leaves the buffer untouched; otherwise the buffer starts with ExportResult |

## Left out

- `IsCarrier` (instruments.h:105-106) is not modelled. It depends on a table of which operators are carriers under each algorithm, and that table is not part of this model.
- The byte layouts of TYI, TFI, EIF, Y12, VGI, DMP/DMP0 and SMPS are not modelled: only their sizes are declared (instruments.h:157-188). Each format's reader and writer is a parameter (`InstrumentFormats.Codecs`). The model asks only that writers produce the format's size and readers give four operators and four 16-bit frequencies.
- The mapping between the GEMS record, which is modelled, and the converter's registers is not modelled either. The header does not say how the GemsFM fields land in reg22, reg27, reg28 and reg90. For example, it does not say where the KEY nibble goes in reg28, or how the 40H byte, "multiplied with volume" (instruments.h:40), relates to TL. ImportGems and ExportGems are therefore parameters like the other formats.
- DMP version detection is inside the DMP reader parameter. The model keeps only its outcome: an instrument, or a refusal.
- `InstrumentConverter::Set`/`Write` (instruments.h:142-143) are not modelled. Their buffer layout is not declared.
- The contents of the format name table and the string-matching policy are not modelled. Names are a parameter: a table of nine distinct strings, matched by exact equality.
- The byte order of the `short` channel-3 frequencies is not modelled. Each is moved as an opaque pair of bytes.
- Dispatch on `GemsInstrument::type` is not modelled, and neither are the DAC and noise instrument kinds (instruments.h:23-31). The type byte is carried through as an ordinary field.
- The zero-length `unk8` member (instruments.h:97) is not modelled. It occupies no bytes.
- Reading and writing files is not modelled. Buffers are Dafny sequences (input) and arrays (output).
- `GemsFMObject.GemsFM.IsOn` requires op from 1 to 4. The header does not say what other values do.
- `InstrumentConverterObject.InstrumentConverter.ImportDMP` promises nothing about the instrument when the DMP reader refuses the buffer. The instrument is then left unspecified.
- `InstrumentConverterObject.InstrumentConverter.Import` requires, for every format but DMP, a buffer of at least that format's size. The DMP reader decides from the version how many bytes it reads.
- `InstrumentFormats.FormatSize` returns 0 for an id outside the enum. `InstrumentFormats.FormatByName` returns -1 for an unknown name. The header does not declare these sentinel values.
