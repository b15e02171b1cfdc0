/**
 VietQRGenerator: writes a `VietQR` record as an EMV merchant-presented
 payload: tags 00, 01, 38, 53, [54], 58, [59], [62], then tag 63 carrying
 the CRC-16 of everything before it, "6304" included.
 */
module VietQRGenerator {
  import opened SwiftRuntime
  import opened Tlv
  import opened Crc
  import opened VietQRModel
  import opened VietQRParser

  // ---------------------------------------------------------------------
  // The payload as a list of data objects
  // ---------------------------------------------------------------------

  /** `if let v = o, !v.isEmpty`: the value when present and not empty. */
  function NonEmpty(o: Option<string>): (r: Option<string>)
    ensures r.Some? <==> o.Some? && o.value != ""
    ensures r.Some? ==> r == o
  {
    if o.Some? && |o.value| > 0 then o else None
  }

  /** The data object for an optional value: there when the value is
      present and not empty. */
  function Optional(tag: string, o: Option<string>): seq<Field> {
    if NonEmpty(o).Some? then [Field(tag, o.value)] else []
  }

  /** Point of initiation method: "11" (static) without an amount, "12"
      (dynamic) with one; an empty amount counts as none. */
  function InitiationMethod(q: VietQR): string {
    if NonEmpty(q.amount).Some? then "12" else "11"
  }

  /** The bank/account block, sub-tag 01 of tag 38. */
  function BnbFields(q: VietQR): seq<Field> {
    [Field("00", q.bankBin), Field("01", q.accountNumber)]
  }

  /** The merchant account information, the value of tag 38. */
  function MerchantFields(q: VietQR): seq<Field> {
    [Field("00", Guid), Field("01", Serialize(BnbFields(q))), Field("02", q.serviceCode)]
  }

  /** The non-empty sub-fields of an additional-data block, sub-tags 01 to 08. */
  function AdditionalFields(d: AdditionalData): seq<Field> {
    Optional("01", d.billNumber) + Optional("02", d.mobileNumber) + Optional("03", d.store)
      + Optional("04", d.loyaltyNumber) + Optional("05", d.reference)
      + Optional("06", d.customerLabel) + Optional("07", d.terminal) + Optional("08", d.purpose)
  }

  /** The sub-fields that go into tag 62: those of `additionalData` when it
      is there (the top-level `purpose` is then ignored), otherwise the
      top-level `purpose` as sub-tag 08. */
  function AdditionalItems(q: VietQR): seq<Field> {
    if q.additionalData.Some? then AdditionalFields(q.additionalData.value)
    else Optional("08", q.purpose)
  }

  /** Tag 62, when it has anything to carry. */
  function AdditionalBlock(q: VietQR): seq<Field> {
    var s := Serialize(AdditionalItems(q));
    if s != "" then [Field("62", s)] else []
  }

  /** The data objects before tag 63, in the order they are written. */
  function PayloadFields(q: VietQR): (r: seq<Field>)
    ensures 5 <= |r| <= 8
  {
    [Field("00", "01"), Field("01", InitiationMethod(q)),
     Field("38", Serialize(MerchantFields(q))), Field("53", "704")]
      + Optional("54", q.amount) + [Field("58", "VN")] + Optional("59", q.accountName)
      + AdditionalBlock(q)
  }

  /** What the checksum is computed over: the data objects and "6304". */
  function Payload(q: VietQR): string {
    Serialize(PayloadFields(q)) + "6304"
  }

  /** `calculateCRC` as a value. */
  function CrcText(data: string): (r: string)
    ensures |r| == 4 && forall i :: 0 <= i < 4 ==> IsUpperHex(r[i])
    ensures HexValue(r) == Value(Crc16(Utf8(data)))
  {
    HexRoundTrip(Value(Crc16(Utf8(data))));
    Hex4(Value(Crc16(Utf8(data))))
  }

  /** The whole payload: the data objects, "6304" and the checksum. */
  function Encode(q: VietQR): (r: string)
    ensures |r| == |Payload(q)| + 4 && HasPrefix(r, Payload(q))
  {
    Payload(q) + CrcText(Payload(q))
  }

  // ---------------------------------------------------------------------
  // `generate(from:)`
  // ---------------------------------------------------------------------

  /** `generate(from:)`: the data objects appended one at a time, then
      "6304", then the checksum of what has been written so far. */
  method Generate(q: VietQR) returns (r: string)
    ensures r == Encode(q)
  {
    var result := DataObjects(q);
    result := result + "6304";
    var crc := CalculateCRC(result);
    result := result + crc;
    r := result;
  }

  /** The data objects `generate(from:)` appends before tag 63, in order. */
  method DataObjects(q: VietQR) returns (result: string)
    ensures result == Serialize(PayloadFields(q))
  {
    result := "";
    ghost var emitted: seq<Field> := [];
    ghost var before: string;
    before := result;
    result := result + BuildTLV("00", "01");
    Step(before, emitted, Field("00", "01"), result);
    assert emitted + [Field("00", "01")] == [Field("00", "01")];
    emitted := [Field("00", "01")];
    var isStatic := q.amount.None? || q.amount.value == "";
    before := result;
    result := result + BuildTLV("01", if isStatic then "11" else "12");
    Step(before, emitted, Field("01", InitiationMethod(q)), result);
    assert emitted + [Field("01", InitiationMethod(q))] == [Field("00", "01"), Field("01", InitiationMethod(q))];
    emitted := [Field("00", "01"), Field("01", InitiationMethod(q))];
    var merchantInfo := MerchantInfo(q);
    before := result;
    result := result + BuildTLV("38", merchantInfo);
    Step(before, emitted, Field("38", merchantInfo), result);
    assert emitted + [Field("38", merchantInfo)] ==
           [Field("00", "01"), Field("01", InitiationMethod(q)), Field("38", merchantInfo)];
    emitted := [Field("00", "01"), Field("01", InitiationMethod(q)), Field("38", merchantInfo)];
    before := result;
    result := result + BuildTLV("53", "704");
    Step(before, emitted, Field("53", "704"), result);
    assert emitted + [Field("53", "704")] ==
           [Field("00", "01"), Field("01", InitiationMethod(q)), Field("38", merchantInfo), Field("53", "704")];
    emitted := [Field("00", "01"), Field("01", InitiationMethod(q)), Field("38", merchantInfo),
                Field("53", "704")];
    before := result;
    if q.amount.Some? && q.amount.value != "" {
      result := result + BuildTLV("54", q.amount.value);
    }
    StepOptional(before, emitted, "54", q.amount, result);
    emitted := emitted + Optional("54", q.amount);
    before := result;
    result := result + BuildTLV("58", "VN");
    Step(before, emitted, Field("58", "VN"), result);
    emitted := emitted + [Field("58", "VN")];
    before := result;
    if q.accountName.Some? && q.accountName.value != "" {
      result := result + BuildTLV("59", q.accountName.value);
    }
    StepOptional(before, emitted, "59", q.accountName, result);
    emitted := emitted + Optional("59", q.accountName);
    var block := AdditionalTag(q);
    SerializeAppend(emitted, AdditionalBlock(q));
    result := result + block;
    emitted := emitted + AdditionalBlock(q);
    assert emitted == PayloadFields(q);
  }

  /** The tag-62 part of `generate(from:)`: the data object it appends,
      or nothing. */
  method AdditionalTag(q: VietQR) returns (block: string)
    ensures block == Serialize(AdditionalBlock(q))
  {
    block := "";
    if q.additionalData.Some? {
      var additionalStr := AdditionalInfo(q.additionalData.value);
      if additionalStr != "" {
        block := block + BuildTLV("62", additionalStr);
      }
    } else if q.purpose.Some? && q.purpose.value != "" {
      var additionalStr := BuildTLV("08", q.purpose.value);
      block := block + BuildTLV("62", additionalStr);
    }
    StepBlock("", [], q, block);
    assert [] + AdditionalBlock(q) == AdditionalBlock(q);
  }

  /** The bank/account block and the merchant account information of tag
      38, each built by appending data objects. */
  method MerchantInfo(q: VietQR) returns (s: string)
    ensures s == Serialize(MerchantFields(q))
  {
    var bnbInfo := "";
    ghost var bnb: seq<Field> := [];
    ghost var before: string;
    before := bnbInfo;
    bnbInfo := bnbInfo + BuildTLV("00", q.bankBin);
    Step(before, bnb, Field("00", q.bankBin), bnbInfo);
    bnb := bnb + [Field("00", q.bankBin)];
    before := bnbInfo;
    bnbInfo := bnbInfo + BuildTLV("01", q.accountNumber);
    Step(before, bnb, Field("01", q.accountNumber), bnbInfo);
    bnb := bnb + [Field("01", q.accountNumber)];
    assert bnb == BnbFields(q);
    s := "";
    ghost var merchant: seq<Field> := [];
    before := s;
    s := s + BuildTLV("00", Guid);
    Step(before, merchant, Field("00", Guid), s);
    merchant := merchant + [Field("00", Guid)];
    before := s;
    s := s + BuildTLV("01", bnbInfo);
    Step(before, merchant, Field("01", bnbInfo), s);
    merchant := merchant + [Field("01", bnbInfo)];
    before := s;
    s := s + BuildTLV("02", q.serviceCode);
    Step(before, merchant, Field("02", q.serviceCode), s);
    merchant := merchant + [Field("02", q.serviceCode)];
    assert merchant == MerchantFields(q);
  }

  /** The value of tag 62 built from an additional-data block: each
      non-empty sub-field appended in sub-tag order. */
  method AdditionalInfo(d: AdditionalData) returns (s: string)
    ensures s == Serialize(AdditionalFields(d))
  {
    ghost var emitted: seq<Field> := [];
    s := AppendOptional("", emitted, "01", d.billNumber);
    assert emitted + Optional("01", d.billNumber) == Optional("01", d.billNumber);
    emitted := Optional("01", d.billNumber);
    s := AppendOptional(s, emitted, "02", d.mobileNumber);
    emitted := emitted + Optional("02", d.mobileNumber);
    s := AppendOptional(s, emitted, "03", d.store);
    emitted := emitted + Optional("03", d.store);
    s := AppendOptional(s, emitted, "04", d.loyaltyNumber);
    emitted := emitted + Optional("04", d.loyaltyNumber);
    s := AppendOptional(s, emitted, "05", d.reference);
    emitted := emitted + Optional("05", d.reference);
    s := AppendOptional(s, emitted, "06", d.customerLabel);
    emitted := emitted + Optional("06", d.customerLabel);
    s := AppendOptional(s, emitted, "07", d.terminal);
    emitted := emitted + Optional("07", d.terminal);
    s := AppendOptional(s, emitted, "08", d.purpose);
    emitted := emitted + Optional("08", d.purpose);
    assert emitted == AdditionalFields(d);
  }

  /** One sub-field step of tag 62: the sub-field is appended when it is
      present and not empty. */
  method AppendOptional(s: string, ghost emitted: seq<Field>, tag: string, o: Option<string>)
    returns (t: string)
    requires s == Serialize(emitted)
    ensures t == Serialize(emitted + Optional(tag, o))
  {
    t := s;
    if o.Some? && o.value != "" {
      t := s + BuildTLV(tag, o.value);
    }
    StepOptional(s, emitted, tag, o, t);
  }

  /** `generateString(from:)`: the same string as `generate(from:)`. */
  method GenerateString(q: VietQR) returns (r: string)
    ensures r == Encode(q)
  {
    r := Generate(q);
  }

  /** `VietQR.toQRString()`: the record written by the generator. */
  method ToQRString(q: VietQR) returns (r: string)
    ensures r == Encode(q)
  {
    r := Generate(q);
  }

  lemma Append(emitted: seq<Field>, f: Field)
    ensures Serialize(emitted + [f]) == Serialize(emitted) + BuildTLV(f.tag, f.value)
  {
    SerializeAppend(emitted, [f]);
  }

  /** One guarded append of `generate`: a present, non-empty value adds
      its data object, anything else leaves the string as it is. */
  lemma StepOptional(before: string, emitted: seq<Field>, tag: string, o: Option<string>, after: string)
    requires before == Serialize(emitted)
    requires after == if o.Some? && o.value != "" then before + BuildTLV(tag, o.value) else before
    ensures after == Serialize(emitted + Optional(tag, o))
  {
    if NonEmpty(o).Some? {
      Append(emitted, Field(tag, o.value));
    } else {
      assert emitted + Optional(tag, o) == emitted;
    }
  }

  lemma Step(before: string, emitted: seq<Field>, f: Field, after: string)
    requires before == Serialize(emitted)
    requires after == before + BuildTLV(f.tag, f.value)
    ensures after == Serialize(emitted + [f])
  {
    Append(emitted, f);
  }

  /** The tag-62 step of `generate`: with `additionalData` its non-empty
      sub-fields when there are any; without it, a non-empty top-level
      purpose as sub-tag 08. */
  lemma StepBlock(before: string, emitted: seq<Field>, q: VietQR, after: string)
    requires before == Serialize(emitted)
    requires q.additionalData.Some? ==>
               var s := Serialize(AdditionalFields(q.additionalData.value));
               after == if s != "" then before + BuildTLV("62", s) else before
    requires q.additionalData.None? ==>
               after == if q.purpose.Some? && q.purpose.value != "" then
                          before + BuildTLV("62", BuildTLV("08", q.purpose.value))
                        else before
    ensures after == Serialize(emitted + AdditionalBlock(q))
  {
    if q.additionalData.None? && NonEmpty(q.purpose).Some? {
      assert Serialize(AdditionalItems(q)) == BuildTLV("08", q.purpose.value) by {
        assert AdditionalItems(q) == [Field("08", q.purpose.value)];
      }
    }
    if AdditionalBlock(q) == [] {
      assert emitted + AdditionalBlock(q) == emitted;
    } else {
      Append(emitted, Field("62", Serialize(AdditionalItems(q))));
    }
  }

  // ---------------------------------------------------------------------
  // Properties of the generated payload
  // ---------------------------------------------------------------------

  lemma SerializeCons(f: Field, rest: seq<Field>)
    ensures Serialize([f] + rest) == BuildTLV(f.tag, f.value) + Serialize(rest)
  {
    assert ([f] + rest)[1..] == rest;
  }

  lemma PrefixOfAppend(a: string, b: string)
    ensures HasPrefix(a + b, a)
  {
    assert (a + b)[..|a|] == a;
  }

  /** The first two data objects as text. */
  lemma HeaderText(method_: string)
    requires method_ == "11" || method_ == "12"
    ensures BuildTLV("00", "01") + BuildTLV("01", method_) == "00020101" + "02" + method_
  {
    assert Format02d(2) == "02";
  }

  /** The data objects after tags 00 and 01. */
  function AfterHeader(q: VietQR): seq<Field> {
    [Field("38", Serialize(MerchantFields(q))), Field("53", "704")]
      + Optional("54", q.amount) + [Field("58", "VN")] + Optional("59", q.accountName)
      + AdditionalBlock(q)
  }

  lemma Regroup(a: Field, b: Field, c: Field, d: Field,
                x: seq<Field>, y: seq<Field>, z: seq<Field>, w: seq<Field>)
    ensures [a, b, c, d] + x + y + z + w == [a, b] + ([c, d] + x + y + z + w)
  {
  }

  lemma SerializeTwo(a: Field, b: Field, rest: seq<Field>)
    ensures Serialize([a, b] + rest) == BuildTLV(a.tag, a.value) + BuildTLV(b.tag, b.value) + Serialize(rest)
  {
    assert [a, b] + rest == [a] + ([b] + rest);
    SerializeCons(a, [b] + rest);
    SerializeCons(b, rest);
  }

  /** The serialized data objects start with tags 00 and 01. */
  lemma SerializedHeader(q: VietQR)
    ensures Serialize(PayloadFields(q)) == "00020101" + "02" + InitiationMethod(q) + Serialize(AfterHeader(q))
  {
    Regroup(Field("00", "01"), Field("01", InitiationMethod(q)),
            Field("38", Serialize(MerchantFields(q))), Field("53", "704"),
            Optional("54", q.amount), [Field("58", "VN")], Optional("59", q.accountName),
            AdditionalBlock(q));
    SerializeTwo(Field("00", "01"), Field("01", InitiationMethod(q)), AfterHeader(q));
    HeaderText(InitiationMethod(q));
  }

  lemma PrefixThrough(header: string, rest: string, tail: string)
    ensures HasPrefix(header + rest + tail, header)
  {
    assert (header + rest + tail)[..|header|] == header;
  }

  /** Every payload starts with the payload format indicator "000201" and
      then the point of initiation method "0102" + "12" with a non-empty
      amount, "0102" + "11" without one. */
  lemma EncodeHeader(q: VietQR)
    ensures HasPrefix(Encode(q), "00020101" + "02" + (if NonEmpty(q.amount).Some? then "12" else "11"))
  {
    EncodeParts(q);
    PrefixThrough("00020101" + "02" + InitiationMethod(q), Serialize(AfterHeader(q)),
                  "6304" + CrcText(Payload(q)));
  }

  lemma EncodeParts(q: VietQR)
    ensures Encode(q) == "00020101" + "02" + InitiationMethod(q) + Serialize(AfterHeader(q))
                         + ("6304" + CrcText(Payload(q)))
  {
    SerializedHeader(q);
  }

  /** Every payload ends with tag 63: "6304" and four upper-case hex digits
      whose value is the CRC-16 of the UTF-8 bytes of everything before
      them, so the payload checks itself. */
  lemma EncodeEndsWithChecksum(q: VietQR)
    ensures var e := Encode(q);
            |e| >= 8 && e[|e| - 8..|e| - 4] == "6304" &&
            (forall i :: |e| - 4 <= i < |e| ==> IsUpperHex(e[i])) &&
            HexValue(e[|e| - 4..]) == Value(Crc16(Utf8(e[..|e| - 4])))
  {
    var e := Encode(q);
    var p := Payload(q);
    assert e[..|e| - 4] == p;
    assert e[|e| - 4..] == CrcText(p);
    assert e[|e| - 8..|e| - 4] == p[|p| - 4..];
  }

  /** `a` comes before `b` as two-character tags. */
  predicate TagBefore(a: string, b: string) {
    |a| == 2 && |b| == 2 && (a[0] < b[0] || (a[0] == b[0] && a[1] < b[1]))
  }

  /** Every data object's tag comes before the tags of those after it, so
      the tags ascend and none is written twice. */
  predicate Ascending(fields: seq<Field>) {
    forall i, j :: 0 <= i < j < |fields| ==> TagBefore(fields[i].tag, fields[j].tag)
  }

  /** Every tag in `fields` comes before `tag`. */
  predicate AllBefore(fields: seq<Field>, tag: string) {
    forall i :: 0 <= i < |fields| ==> TagBefore(fields[i].tag, tag)
  }

  /** Appending data objects whose tags all come after the ones before
      keeps the order. */
  lemma AscendingStep(fields: seq<Field>, more: seq<Field>, tag: string, next: string)
    requires Ascending(fields) && AllBefore(fields, tag) && TagBefore(tag, next)
    requires forall i :: 0 <= i < |more| ==> more[i].tag == tag
    requires |more| <= 1
    ensures Ascending(fields + more) && AllBefore(fields + more, next)
  {
  }

  /** The sub-tags of tag 62 are written in ascending order, each at most once. */
  lemma AdditionalTagsAscend(d: AdditionalData)
    ensures Ascending(AdditionalFields(d))
  {
    var f1 := Optional("01", d.billNumber);
    AscendingStep([], f1, "01", "02");
    assert [] + f1 == f1;
    var f2 := f1 + Optional("02", d.mobileNumber);
    AscendingStep(f1, Optional("02", d.mobileNumber), "02", "03");
    var f3 := f2 + Optional("03", d.store);
    AscendingStep(f2, Optional("03", d.store), "03", "04");
    var f4 := f3 + Optional("04", d.loyaltyNumber);
    AscendingStep(f3, Optional("04", d.loyaltyNumber), "04", "05");
    var f5 := f4 + Optional("05", d.reference);
    AscendingStep(f4, Optional("05", d.reference), "05", "06");
    var f6 := f5 + Optional("06", d.customerLabel);
    AscendingStep(f5, Optional("06", d.customerLabel), "06", "07");
    var f7 := f6 + Optional("07", d.terminal);
    AscendingStep(f6, Optional("07", d.terminal), "07", "08");
    AscendingStep(f7, Optional("08", d.purpose), "08", "09");
  }

  /** The data objects of the payload are written in ascending tag order,
      each at most once, starting 00, 01, 38, 53. */
  lemma PayloadTagsAscend(q: VietQR)
    ensures Ascending(PayloadFields(q))
  {
    var fixed := [Field("00", "01"), Field("01", InitiationMethod(q)),
                  Field("38", Serialize(MerchantFields(q))), Field("53", "704")];
    assert Ascending(fixed) && AllBefore(fixed, "54");
    var a := Optional("54", q.amount);
    AscendingStep(fixed, a, "54", "58");
    var f2 := fixed + a;
    AscendingStep(f2, [Field("58", "VN")], "58", "59");
    var f3 := f2 + [Field("58", "VN")];
    var n := Optional("59", q.accountName);
    AscendingStep(f3, n, "59", "62");
    var f4 := f3 + n;
    var b := AdditionalBlock(q);
    AscendingStep(f4, b, "62", "63");
    assert PayloadFields(q) == f4 + b;
  }

  /** The payload always opens with tags 00, 01, 38 and 53, in that order,
      and has at least one more data object (58). */
  lemma PayloadHead(q: VietQR)
    ensures var f := PayloadFields(q);
            |f| >= 5 && f[0].tag == "00" && f[1].tag == "01" && f[2].tag == "38" && f[3].tag == "53"
  {
    var fixed := [Field("00", "01"), Field("01", InitiationMethod(q)),
                  Field("38", Serialize(MerchantFields(q))), Field("53", "704")];
    var f2 := fixed + Optional("54", q.amount);
    var f3 := f2 + [Field("58", "VN")];
    var f4 := f3 + Optional("59", q.accountName);
    assert PayloadFields(q) == f4 + AdditionalBlock(q);
    assert f4[..4] == f3[..4] == f2[..4] == fixed;
  }

  /** With an additional-data block the top-level `purpose` is never
      written: changing it does not change the payload. */
  lemma PurposeShadowed(q: VietQR, purpose: Option<string>)
    requires q.additionalData.Some?
    ensures Encode(q.(purpose := purpose)) == Encode(q)
  {
    assert PayloadFields(q.(purpose := purpose)) == PayloadFields(q);
  }

  /** Without an additional-data block a non-empty top-level `purpose` is
      written as tag 62 holding sub-tag 08, and otherwise tag 62 is left out. */
  lemma PurposeFallback(q: VietQR)
    requires q.additionalData.None?
    ensures AdditionalBlock(q) ==
              if NonEmpty(q.purpose).Some? then [Field("62", BuildTLV("08", q.purpose.value))] else []
  {
    if NonEmpty(q.purpose).Some? {
      assert Serialize(AdditionalItems(q)) == BuildTLV("08", q.purpose.value) by {
        assert AdditionalItems(q) == [Field("08", q.purpose.value)];
      }
    }
  }

  /** The block `init` synthesises from a purpose is written exactly as the
      fallback for a record without additional data would write the
      purpose, so both paths of `generate` agree on records `init` builds. */
  lemma InitPurposeAgrees(bankBin: string, accountNumber: string, accountName: Option<string>,
                          amount: Option<string>, purpose: Option<string>)
    ensures var q := Init(bankBin, accountNumber, accountName, amount, purpose);
            Encode(q) == Encode(q.(additionalData := None))
  {
    var q := Init(bankBin, accountNumber, accountName, amount, purpose);
    if purpose.Some? {
      var d := q.additionalData.value;
      assert d == NoAdditionalData.(purpose := purpose);
      assert AdditionalFields(d) == Optional("08", purpose);
      assert AdditionalItems(q) == AdditionalItems(q.(additionalData := None));
      assert PayloadFields(q) == PayloadFields(q.(additionalData := None));
    }
  }
}
