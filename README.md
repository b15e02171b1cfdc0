# VietQR payload codec, modelled in Dafny

This project models the VietQR core of the Swift package `VNBankQR`.
VietQR is the NAPAS profile of the EMV QR Code Specification for Payment
Systems (Merchant-Presented Mode). The model covers:

- the tag-length-value scanner and writer (`parseTLV`, `buildTLV`);
- the CRC-16/CCITT-FALSE checksum of tag 63 (`calculateCRC`);
- the decoder (`canParse`, `parse(from:)`) and the generator (`generate(from:)`, `generateString(from:)`);
- the `VietQR` record with its initializer and `displayInfo`;
- the first-match parser registry `BankQRFactory`.

A payload is a run of data objects. Each one is a two-character tag, a
two-digit length and a value of that many characters. The value of tag 38
nests a second level, and its sub-tag 01 nests a third. Tag 62 nests the
additional-data sub-fields.

Modules:

| module | file | models |
|---|---|---|
| `SwiftRuntime` | `swift_runtime.dfy` | `Optional`, runtime traps (`Run`), `Int(String)`, `%02d`, `%04X`, `String.utf8` |
| `Tlv` | `tlv.dfy` | `parseTLV` (a loop, proved against the function `Scan`), `buildTLV`, data-object lists |
| `Crc` | `crc.dfy` | `calculateCRC` (the nested loops, proved against the fold `Crc16`), check values |
| `CrcReference` | `crc_reference.dfy` | an independent bit-serial CRC register, proved equal to `Crc16` |
| `VietQRModel` | `vietqr_model.dfy` | `VietQR`, `AdditionalData`, `init`, `displayInfo` |
| `VietQRParser` | `vietqr_parser.dfy` | `canParse`, `parse(from:)` and its guard chain |
| `VietQRGenerator` | `vietqr_generator.dfy` | `generate(from:)` (guarded appends, proved against `Encode`), `generateString`, `toQRString` |
| `VietQRCodec` | `vietqr_codec.dfy` | the round trip `parse(generate(q))` |
| `BankQRFactory` | `bank_qr_factory.dfy` | the parser list, `detectParser`, `parseBankQR`, `registerParser`, `parseVietQR` |
| `VietQRExamples` | `vietqr_examples.dfy` | the package's test vectors and the demo's NAPAS sample |

Swift behaviours the model makes explicit:

- **Negative lengths trap.** `Int("-5")` is -5. Such a length passes the
  "enough characters left" guard of `parseTLV` and then forms a reversed
  range, which traps. The model returns `Trap` there and propagates it
  through `canParse`, `parse` and the factory. Every other malformed input
  stops the scan and keeps the dictionary built so far.
- **The checksum is computed but never verified.** `parse` never reads tag
  63, so the value after "6304" does not matter to it.
- **The CRC covers UTF-8 bytes.** `calculateCRC` runs over the UTF-8 bytes
  of the text, while lengths count characters. The model encodes UTF-8 for
  every Unicode scalar.

Where the code and its surrounding material disagree, the model follows the code:

- **The CRC check value.** The check value of "123456789" under the code's
  algorithm (preset FFFF, polynomial 1021, no reflection, no final XOR) is
  29B1, proved in `Crc.CheckString`. The value E5CC, which is sometimes
  quoted, belongs to the variant with preset 1D0F.
- **The sample's account number.** The NAPAS sample's account number is
  13 characters long, "0011001800879", because its length field says 13.
  The package's tests expect a 14-character value.
- **The generator test's suffix check.** The generator test at
  `Tests/VNBankQRTests/VietQRTests.swift:112` expects the string to end
  with "6304". `generate` appends the four checksum digits after "6304",
  so the payload ends with those digits (`VietQRGenerator.EncodeEndsWithChecksum`).

## Model

| member | source | states |
|---|---|---|
| SwiftRuntime.ParseIntOfTwo | Sources/VNBankQR/Parser/VietQR/VietQRParser.swift:123-124 | `Int(_:)` on the two length characters: two digits give their value, a sign and a digit give a signed value, anything else gives nil |
| SwiftRuntime.ParseInt | Sources/VNBankQR/Parser/VietQR/VietQRParser.swift:123 | `Int(_:)`: a result lies in the 64-bit range and comes from text that starts with a digit or a sign; a negative result needs a leading '-' |
| SwiftRuntime.Format02d | Sources/VNBankQR/Parser/VietQR/VietQRParser.swift:144 | `String(format: "%02d")` writes only decimal digits |
| SwiftRuntime.Hex4 | Sources/VNBankQR/Parser/VietQR/VietQRParser.swift:168 | `String(format: "%04X")` of a 16-bit value writes exactly four upper-case hex digits |
| SwiftRuntime.Utf8 | Sources/VNBankQR/Parser/VietQR/VietQRParser.swift:154 | `String.utf8`: at least one byte per character |
| SwiftRuntime.FormatThenParse | Sources/VNBankQR/Parser/VietQR/VietQRParser.swift:144 | `%02d` writes exactly two digits below 100 and at least three from 100 on, and `Int(_:)` reads back the number it wrote |
| SwiftRuntime.DecimalValue | Sources/VNBankQR/Parser/VietQR/VietQRParser.swift:144 | the digits `%d` writes denote the number written |
| SwiftRuntime.HexRoundTrip | Sources/VNBankQR/Parser/VietQR/VietQRParser.swift:168 | `%04X` of a 16-bit register loses nothing: its four digits read back as the register value |
| SwiftRuntime.Utf8Append | Sources/VNBankQR/Parser/VietQR/VietQRParser.swift:154 | the UTF-8 bytes of a concatenation are the concatenation of the bytes |
| SwiftRuntime.Utf8Ascii | Sources/VNBankQR/Parser/VietQR/VietQRParser.swift:154 | on ASCII text, `utf8` has one byte per character, equal to its code |
| Tlv.ParseTLV | Sources/VNBankQR/Parser/VietQR/VietQRParser.swift:112-136 | the cursor loop computes the scan: it stops with the dictionary so far when under four characters remain, the length is not an integer or too few characters follow; it traps on a negative length; otherwise it stores the value under its tag and moves past it |
| Tlv.Scan | Sources/VNBankQR/Parser/VietQR/VietQRParser.swift:112-136 | what `parseTLV` computes: a text under four characters gives the empty dictionary; the loop `Tlv.ParseTLV` computes it |
| Tlv.BuildTLV | Sources/VNBankQR/Parser/VietQR/VietQRParser.swift:143-146 | the result starts with the tag and ends with the value, with exactly two length characters between them when the value is under 100 characters |
| Tlv.StopsScansNothing | Sources/VNBankQR/Parser/VietQR/VietQRParser.swift:117-126 | a string that fails a guard at its first data object scans to the empty dictionary, not an error |
| Tlv.ScanHead | Sources/VNBankQR/Parser/VietQR/VietQRParser.swift:119-132 | a written data object is read back whole: its value is stored under its tag and the scan continues right after it |
| Tlv.ScanSerialize | Sources/VNBankQR/Parser/VietQR/VietQRParser.swift:112-136 | scanning well-formed data objects followed by any text gives their dictionary merged under what the text scans to |
| Tlv.ScanOfSerialize | Sources/VNBankQR/Parser/VietQR/VietQRParser.swift:112-146 | well-formed data objects written one after another scan back to their dictionary |
| Tlv.ScanIsLenient | Sources/VNBankQR/Parser/VietQR/VietQRParser.swift:117-126 | trailing text the scan cannot read is dropped, and what came before it is kept |
| Tlv.BuildThenScan | Sources/VNBankQR/Parser/VietQR/VietQRParser.swift:143-146 | `parseTLV(buildTLV(t, v))` is `[t: v]` for a two-character tag and a value under 100 characters |
| Tlv.LastOccurrenceWins | Sources/VNBankQR/Parser/VietQR/VietQRParser.swift:131 | a tag written twice keeps its second value |
| Tlv.ToMapAppend | Sources/VNBankQR/Parser/VietQR/VietQRParser.swift:131 | the dictionary of two runs of data objects is the first overridden by the second |
| Tlv.ToMapKeys | Sources/VNBankQR/Parser/VietQR/VietQRParser.swift:131 | the dictionary has a key exactly for each tag that occurs |
| Tlv.SerializeAppend | Sources/VNBankQR/Parser/VietQR/VietQRParser.swift:143-146 | writing two runs of data objects is writing each in turn |
| Tlv.ScannedValuesAreShorter | Sources/VNBankQR/Parser/VietQR/VietQRParser.swift:126-129 | every key the scan stores is a two-character tag, and every value is at least four characters shorter than the input |
| Tlv.NoMinusNoTrap | Sources/VNBankQR/Parser/VietQR/VietQRParser.swift:124-129 | text without a '-' never traps the scan |
| Tlv.NegativeLengthTraps | Sources/VNBankQR/Parser/VietQR/VietQRParser.swift:122-129 | a negative length passes the "characters left" guard and then traps the scan, whatever follows |
| Tlv.LongValueBreaksRoundTrip | Sources/VNBankQR/Parser/VietQR/VietQRParser.swift:143-146 | a value of 100 to 999 characters does not scan back: the three-digit length is read as its first two digits |
| Tlv.LongLengthField | Sources/VNBankQR/Parser/VietQR/VietQRParser.swift:122-146 | such a data object's length characters read back as the length divided by ten |
| Crc.CalculateCRC | Sources/VNBankQR/Parser/VietQR/VietQRParser.swift:153-169 | four upper-case hex digits whose value is the CRC-16/CCITT-FALSE of the UTF-8 bytes of the input |
| Crc.Checksum | Sources/VNBankQR/Parser/VietQR/VietQRParser.swift:155-166 | the nested loops compute the byte-by-byte fold from preset FFFF, each byte XORed into the high half and shifted eight times with polynomial 1021 |
| Crc.Crc16 | Sources/VNBankQR/Parser/VietQR/VietQRParser.swift:155-166 | the register after absorbing the bytes in order starts at the preset FFFF; `CrcReference.Crc16IsBitSerial` shows it is the bit-serial CRC |
| Crc.Crc16Snoc | Sources/VNBankQR/Parser/VietQR/VietQRParser.swift:157-166 | appending a byte absorbs it into the checksum of the bytes before it |
| Crc.EmptyCheckValue | Sources/VNBankQR/Parser/VietQR/VietQRParser.swift:153-169 | `calculateCRC("")` is "FFFF" |
| Crc.CheckValue | Sources/VNBankQR/Parser/VietQR/VietQRParser.swift:153-169 | the register after "123456789" is 0x29B1, the catalogued check value of CRC-16/CCITT-FALSE |
| Crc.CheckString | Sources/VNBankQR/Parser/VietQR/VietQRParser.swift:153-169 | `calculateCRC("123456789")` is "29B1" |
| CrcReference.ShiftIsBitStep | Sources/VNBankQR/Parser/VietQR/VietQRParser.swift:159-165 | one shift of the byte-wise register is one step of the bit-serial register |
| CrcReference.AbsorbIsBitSerial | Sources/VNBankQR/Parser/VietQR/VietQRParser.swift:158-165 | absorbing a byte is feeding its eight bits, most significant first, to a bit-serial register |
| CrcReference.Crc16IsBitSerial | Sources/VNBankQR/Parser/VietQR/VietQRParser.swift:153-169 | the checksum equals the bit-serial CRC of the whole message, for every message |
| VietQRModel.Init | Sources/VNBankQR/Models/VietQR/VietQRModel.swift:55-66 | the five arguments are stored unchanged and the service code is "QRIBFTTA"; a purpose, even an empty one, gives additional data holding only that purpose; no purpose gives none |
| VietQRModel.Line | Sources/VNBankQR/Models/VietQR/VietQRModel.swift:80-94 | a line is written exactly when its value is present, and then it is a newline, the title, ": " and the value |
| VietQRModel.DisplayInfo | Sources/VNBankQR/Models/VietQR/VietQRModel.swift:74-97 | starts with the bank BIN and account lines; ends with the reference line when there is one, and otherwise with the purpose line; is the header alone exactly when name, purpose and reference are all absent |
| VietQRModel.SplitSnoc | Sources/VNBankQR/Models/VietQR/VietQRModel.swift:80-94 | appending a newline and a line to a text adds exactly that line after the text's lines |
| VietQRModel.SplitLine | Sources/VNBankQR/Models/VietQR/VietQRModel.swift:80-94 | each `info +=` of a present field adds its one line at the end, and an absent field adds none |
| VietQRModel.DisplayInfoLines | Sources/VNBankQR/Models/VietQR/VietQRModel.swift:74-97 | split at its newlines, `displayInfo` is "Bank BIN: …", "Account: …", then one line for each present field in the order account name, purpose, reference, for values holding no newline |
| VietQRParser.Lookup | Sources/VNBankQR/Parser/VietQR/VietQRParser.swift:57-63 | a dictionary read: nil exactly when the tag is absent, otherwise its value |
| VietQRParser.CanParse | Sources/VNBankQR/Parser/VietQR/VietQRParser.swift:22-31 | `canParse`: true only when the scan succeeds with "01" under tag 00 and a tag 38; a trap in the scan traps |
| VietQRParser.Parse | Sources/VNBankQR/Parser/VietQR/VietQRParser.swift:33-98 | `parse(from:)`: a record only when the scan succeeds with "01" under tag 00 and a tag 38; a trap in the scan traps |
| VietQRParser.Decode | Sources/VNBankQR/Parser/VietQR/VietQRParser.swift:37-97 | a record only when tag 00 is "01" and tag 38 is present, with amount and name taken verbatim from tags 54 and 59 and additional data present exactly when tag 62 is |
| VietQRParser.AdditionalFrom | Sources/VNBankQR/Parser/VietQR/VietQRParser.swift:72-80 | sub-tags 01 to 08 fill bill number through purpose, one for one |
| VietQRParser.ParseAcceptsExactly | Sources/VNBankQR/Parser/VietQR/VietQRParser.swift:33-98 | `parse` returns a record exactly when 00 is "01", tag 38 is present with the NAPAS identifier and a sub-tag 01, that block holds both 00 and 01, and no scan traps |
| VietQRParser.ParseRejects | Sources/VNBankQR/Parser/VietQR/VietQRParser.swift:37-54 | when `parse` returns nil, one of its guards failed |
| VietQRParser.ParseFields | Sources/VNBankQR/Parser/VietQR/VietQRParser.swift:57-95 | each field of the record comes from its tag: BIN and account from 38.01, the service code from 38.02 or "QRIBFTTA", amount and name from 54 and 59 verbatim, additional data present exactly when 62 is, and the purpose from 62.08 |
| VietQRParser.CanParseDecides | Sources/VNBankQR/Parser/VietQR/VietQRParser.swift:22-44 | a record implies `canParse`, a failing `canParse` implies nil, and a trap in `canParse` is a trap in `parse` |
| VietQRParser.CanParseExactly | Sources/VNBankQR/Parser/VietQR/VietQRParser.swift:22-31 | `canParse` is true exactly when tag 00 is "01", tag 38 is present and its sub-tag 00 is the NAPAS identifier A000000727; it traps exactly when one of its two scans traps; otherwise it is false |
| VietQRParser.Relevant | Sources/VNBankQR/Parser/VietQR/VietQRParser.swift:37-84 | the dictionary cut down to the tags `parse` reads answers every lookup of those tags as the whole dictionary does |
| VietQRParser.DecodeRelevant | Sources/VNBankQR/Parser/VietQR/VietQRParser.swift:37-97 | decoding looks only at tags 00, 38, 54, 59 and 62 |
| VietQRParser.ParseReadsOnlyItsTags | Sources/VNBankQR/Parser/VietQR/VietQRParser.swift:33-98 | two payloads that agree on those tags parse alike |
| VietQRParser.ScanWithChecksum | Sources/VNBankQR/Parser/VietQR/VietQRParser.swift:112-136 | data objects followed by "6304" and four characters scan to their dictionary with tag 63 added |
| VietQRParser.ParseIgnoresChecksum | Sources/VNBankQR/Parser/VietQR/VietQRParser.swift:33-98 | the checksum is never verified: changing the four digits after "6304" does not change what `parse` returns |
| VietQRGenerator.NonEmpty | Sources/VNBankQR/Generator/VietQR/VietQRGenerator.swift:70 | `if let v = o, !v.isEmpty` keeps exactly the present, non-empty values |
| VietQRGenerator.CrcText | Sources/VNBankQR/Generator/VietQR/VietQRGenerator.swift:122 | four upper-case hex digits whose value is the CRC of the text's UTF-8 bytes |
| VietQRGenerator.PayloadFields | Sources/VNBankQR/Generator/VietQR/VietQRGenerator.swift:41-118 | the data objects written before tag 63: the five mandatory ones (00, 01, 38, 53, 58) and at most three optional ones (54, 59, 62); `VietQRGenerator.PayloadHead` fixes the first four and `VietQRGenerator.PayloadTagsAscend` their order |
| VietQRGenerator.Encode | Sources/VNBankQR/Generator/VietQR/VietQRGenerator.swift:37-126 | the payload text followed by exactly four checksum characters |
| VietQRGenerator.Generate | Sources/VNBankQR/Generator/VietQR/VietQRGenerator.swift:37-126 | the string the appends build is `Encode(q)`: the data objects in order, "6304", then the checksum of everything before it |
| VietQRGenerator.DataObjects | Sources/VNBankQR/Generator/VietQR/VietQRGenerator.swift:38-118 | the guarded appends write 00, 01, 38, 53 = "704", 54 for a non-empty amount, 58 = "VN", 59 for a non-empty name, then tag 62 |
| VietQRGenerator.MerchantInfo | Sources/VNBankQR/Generator/VietQR/VietQRGenerator.swift:55-62 | the value of tag 38 is the NAPAS identifier, the bank/account block (BIN, account number) and the service code |
| VietQRGenerator.AdditionalTag | Sources/VNBankQR/Generator/VietQR/VietQRGenerator.swift:83-118 | tag 62 is written from the additional data when there is any, else from a non-empty top-level purpose, and left out when it would be empty |
| VietQRGenerator.AdditionalInfo | Sources/VNBankQR/Generator/VietQR/VietQRGenerator.swift:84-110 | the non-empty sub-fields are written as sub-tags 01 to 08, in that order |
| VietQRGenerator.AppendOptional | Sources/VNBankQR/Generator/VietQR/VietQRGenerator.swift:86-88 | one guarded append adds the sub-field exactly when it is present and not empty |
| VietQRGenerator.GenerateString | Sources/VNBankQR/Generator/VietQR/VietQRGenerator.swift:23-25 | `generateString` returns the same string as `generate` |
| VietQRGenerator.ToQRString | Sources/VNBankQR/Models/VietQR/VietQRModel.swift:70-72 | `toQRString()` is the generated payload |
| VietQRGenerator.StepOptional | Sources/VNBankQR/Generator/VietQR/VietQRGenerator.swift:70-80 | a guarded append extends the written text by the optional data object |
| VietQRGenerator.StepBlock | Sources/VNBankQR/Generator/VietQR/VietQRGenerator.swift:83-118 | the tag-62 branch extends the written text by the tag-62 block |
| VietQRGenerator.SerializedHeader | Sources/VNBankQR/Generator/VietQR/VietQRGenerator.swift:41-45 | the written data objects open with "000201" and "0102" followed by the initiation method |
| VietQRGenerator.EncodeHeader | Sources/VNBankQR/Generator/VietQR/VietQRGenerator.swift:41-45 | every payload starts with "000201" and then "010212" for a non-empty amount or "010211" otherwise |
| VietQRGenerator.EncodeParts | Sources/VNBankQR/Generator/VietQR/VietQRGenerator.swift:41-125 | the payload is the header, the data objects after tag 01, then "6304" and the checksum |
| VietQRGenerator.EncodeEndsWithChecksum | Sources/VNBankQR/Generator/VietQR/VietQRGenerator.swift:120-125 | every payload ends with "6304" and four upper-case hex digits whose value is the CRC of all the text before them |
| VietQRGenerator.AscendingStep | Sources/VNBankQR/Generator/VietQR/VietQRGenerator.swift:67-118 | appending data objects tagged after all earlier ones keeps the tags ascending |
| VietQRGenerator.AdditionalTagsAscend | Sources/VNBankQR/Generator/VietQR/VietQRGenerator.swift:86-110 | the sub-tags of 62 are written in ascending order, each at most once |
| VietQRGenerator.PayloadTagsAscend | Sources/VNBankQR/Generator/VietQR/VietQRGenerator.swift:41-118 | the data objects are written in strictly ascending tag order, so no tag repeats |
| VietQRGenerator.PayloadHead | Sources/VNBankQR/Generator/VietQR/VietQRGenerator.swift:41-67 | every payload opens with tags 00, 01, 38 and 53, in that order, and has more after them |
| VietQRGenerator.PurposeShadowed | Sources/VNBankQR/Generator/VietQR/VietQRGenerator.swift:83-114 | with additional data present, the top-level purpose is never written |
| VietQRGenerator.PurposeFallback | Sources/VNBankQR/Generator/VietQR/VietQRGenerator.swift:114-118 | without additional data, a non-empty purpose is written as tag 62 holding sub-tag 08, and otherwise tag 62 is left out |
| VietQRGenerator.InitPurposeAgrees | Sources/VNBankQR/Models/VietQR/VietQRModel.swift:63-65 | the block `init` builds from a purpose is written exactly as the no-additional-data fallback would write that purpose |
| VietQRCodec.StripData | Sources/VNBankQR/Generator/VietQR/VietQRGenerator.swift:86-110 | removing the empty sub-fields does not change what is written |
| VietQRCodec.ToMapOptional | Sources/VNBankQR/Generator/VietQR/VietQRGenerator.swift:70-80 | an optional data object's dictionary holds at most its own tag, with the value exactly when it is non-empty |
| VietQRCodec.SerializeEmpty | Sources/VNBankQR/Generator/VietQR/VietQRGenerator.swift:111-113 | data objects write nothing exactly when there are none |
| VietQRCodec.PayloadKey | Sources/VNBankQR/Generator/VietQR/VietQRGenerator.swift:41-118 | each top-level tag is looked up in the generated payload part by part, from tag 62 back to the fixed opening four |
| VietQRCodec.PayloadLookups | Sources/VNBankQR/Parser/VietQR/VietQRParser.swift:37-69 | the generated dictionary holds "01" under 00, the merchant block under 38, the non-empty amount under 54, the non-empty name under 59, and the tag-62 block under 62 when there is one |
| VietQRCodec.MerchantLookups | Sources/VNBankQR/Parser/VietQR/VietQRParser.swift:41-57 | the merchant block scans back to the NAPAS identifier, the bank/account block and the service code, and that block to the BIN and the account number |
| VietQRCodec.AdditionalKey | Sources/VNBankQR/Parser/VietQR/VietQRParser.swift:70-80 | a written additional-data block answers each sub-tag with its non-empty sub-field |
| VietQRCodec.AdditionalDecodes | Sources/VNBankQR/Parser/VietQR/VietQRParser.swift:69-83 | decoding a written additional-data block gives it back with empty sub-fields made absent |
| VietQRCodec.AdditionalFieldsEmpty | Sources/VNBankQR/Generator/VietQR/VietQRGenerator.swift:111-113 | an additional-data block writes nothing exactly when all its sub-fields are absent or empty |
| VietQRCodec.AdditionalRoundTrip | Sources/VNBankQR/Parser/VietQR/VietQRParser.swift:69-84 | tag 62 is written exactly when the canonical record has additional data, and it decodes to that data |
| VietQRCodec.EncodeScans | Sources/VNBankQR/Parser/VietQR/VietQRParser.swift:112-136 | a generated payload scans to the dictionary of its data objects plus tag 63 |
| VietQRCodec.DecodeGenerated | Sources/VNBankQR/Parser/VietQR/VietQRParser.swift:37-97 | any dictionary holding what the generator writes under the tags `parse` reads decodes to the canonical record |
| VietQRCodec.RoundTrip | Sources/VNBankQR/Parser/VietQR/VietQRParser.swift:33-98 | when every written value fits a two-digit length, parsing a generated payload gives back the record with empty name and amount made absent, the purpose taken from tag 62, and empty sub-fields removed |
| VietQRCodec.CanonicalItems | Sources/VNBankQR/Generator/VietQR/VietQRGenerator.swift:37-118 | a record and its canonical form write the same data objects |
| VietQRCodec.EncodeCanonical | Sources/VNBankQR/Generator/VietQR/VietQRGenerator.swift:37-126 | normalising a record does not change its payload |
| VietQRCodec.CanonicalIdempotent | Sources/VNBankQR/Parser/VietQR/VietQRParser.swift:60-95 | normalising twice is normalising once |
| VietQRCodec.ExactRoundTrip | Sources/VNBankQR/Parser/VietQR/VietQRParser.swift:33-98 | parsing a generated payload gives back exactly the record given if and only if the record is already canonical |
| VietQRCodec.RegenerateStable | Sources/VNBankQR/Generator/VietQR/VietQRGenerator.swift:37-126 | regenerating from a parsed generated payload reproduces the payload, checksum included |
| VietQRCodec.InitRoundTrip | Sources/VNBankQR/Models/VietQR/VietQRModel.swift:55-66 | a record built by `init` from non-empty optional values survives generate-then-parse unchanged |
| BankQRFactory.Detect | Sources/VNBankQR/Core/BankQRFactory.swift:27-34 | the detected position, when there is one, is a position in the parser list |
| BankQRFactory.Accepts | Sources/VNBankQR/Core/BankQRFactory.swift:27-34 | the VietQR parser accepts what `canParse` accepts; a custom parser accepts what its predicate accepts and never traps |
| BankQRFactory.ParseWith | Sources/VNBankQR/Core/BankQRFactory.swift:36-54 | a record only from `parse`, and only when the detected parser is the VietQR parser; nil when no parser is detected |
| BankQRFactory.Factory.constructor | Sources/VNBankQR/Core/BankQRFactory.swift:14-23 | a fresh registry holds the VietQR parser alone |
| BankQRFactory.Factory.DetectParser | Sources/VNBankQR/Core/BankQRFactory.swift:27-34 | the loop with early return finds what `Detect` specifies |
| BankQRFactory.Factory.ParseBankQR | Sources/VNBankQR/Core/BankQRFactory.swift:36-54 | nil when no parser is detected or the detected parser is not the VietQR parser, otherwise what `parse` returns |
| BankQRFactory.Factory.RegisterParser | Sources/VNBankQR/Core/BankQRFactory.swift:68-70 | the new parser is appended after all the others, which are unchanged |
| BankQRFactory.Factory.ParseVietQR | Sources/VNBankQR/Core/BankQRFactory.swift:77-79 | the VietQR parser directly, whatever is registered |
| BankQRFactory.DetectIsFirst | Sources/VNBankQR/Core/BankQRFactory.swift:27-34 | the detected parser accepts and every parser before it rejects; nil exactly when every parser rejects |
| BankQRFactory.RegisterKeepsDetection | Sources/VNBankQR/Core/BankQRFactory.swift:68-70 | registering keeps every earlier detection; a string nobody accepted goes to the new parser exactly when it accepts it |
| BankQRFactory.DefaultFactoryParsesVietQR | Sources/VNBankQR/Core/BankQRFactory.swift:17-44 | with the default registry, `parseBankQR` is `parse` |
| BankQRFactory.CustomParsersYieldNothing | Sources/VNBankQR/Core/BankQRFactory.swift:42-53 | a string detected by a custom parser gives nil |
| BankQRFactory.TrapStopsDetection | Sources/VNBankQR/Core/BankQRFactory.swift:27-54 | when the first parser asked is the VietQR parser and its `canParse` traps, detection and `parseBankQR` trap too |
| VietQRExamples.RejectsEmpty | Tests/VNBankQRTests/VietQRTests.swift:71-80 | the empty string parses to nil |
| VietQRExamples.RejectsInvalidText | Tests/VNBankQRTests/VietQRTests.swift:60-69 | "invalid_qr_string" parses to nil |
| VietQRExamples.RejectsMissingMerchantInfo | Tests/VNBankQRTests/VietQRTests.swift:82-91 | "00020101021253037045802VN6304XXXX", which has no tag 38, parses to nil |
| VietQRExamples.NegativeLengthTrapsParse | Sources/VNBankQR/Parser/VietQR/VietQRParser.swift:122-129 | "00-1" traps `parseTLV`, `canParse`, `parse` and `parseBankQR` with the default parser list |
| VietQRExamples.SampleLayout | Demo/VNBankQRDemo/ViewController.swift:280 | the NAPAS sample is the data objects the generator writes for its record, then "6304" and "D1EF" |
| VietQRExamples.NapasSampleIsDemoSample | Demo/VNBankQRDemo/ViewController.swift:280 | the sample built data object by data object is the demo's string, character for character |
| VietQRExamples.ParsesNapasSample | Demo/VNBankQRDemo/ViewController.swift:280-337 | the NAPAS sample parses to BIN 970436, account 0011001800879, amount 100000, purpose "nhan tien", service code QRIBFTTA, no account name |
| VietQRExamples.RegeneratesNapasSample | Demo/VNBankQRDemo/ViewController.swift:309-329 | regenerating from the parsed sample reproduces the sample up to and including "6304" |
| VietQRExamples.TestRoundTrip | Tests/VNBankQRTests/VietQRTests.swift:115-134 | the test's record (BIN 970436, account 00110018008790, amount 100000, purpose "test payment") survives generate-then-parse |

## Left out

- The amount line of `displayInfo` and `formatAmount` (`VietQRModel.swift:84-86,99-105`): they depend on a locale-dependent `NumberFormatter`.
- `parse(from: UIImage)`, `parseBankQR(from: UIImage)`, `parseVietQR(from: UIImage)`, `generateImage`: these are camera and CoreImage I/O.
- The `shared` singletons: `Factory.constructor` builds a registry in the state the private `init` leaves it.
- Custom parsers are modelled by their `canParse` alone, as a total function of the string. `parseBankQR` returns nil for any parser other than the VietQR one, so what they would parse is never used.
- BankQRFactory.Factory.DetectParser: returns the position of the detected parser in the list rather than the parser object.
- Swift `Character` is a grapheme cluster, while the model counts Unicode scalars. Swift's `String ==` and `Dictionary` keys also compare strings up to canonical equivalence, while the model compares scalar by scalar. Both agree on the text VietQR payloads carry, but not for characters made of several scalars or for differently normalised forms of the same text.
- VietQRCodec.RoundTrip: holds only when every written value fits a two-digit length; `generate` does not check this, and `Tlv.LongValueBreaksRoundTrip` shows how the round trip breaks beyond it.
- The checksum of the NAPAS sample is not computed. The model proves that `parse` ignores it and that regeneration reproduces everything before it; whether "D1EF" is correct is not stated.
- The expected values at `Tests/VNBankQRTests/VietQRTests.swift:29,44,56,163-166` are not modelled. They contradict what `parseTLV` computes from the strings those tests give.
