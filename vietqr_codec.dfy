/**
 What `parse(from:)` makes of what `generate(from:)` writes. The generator
 drops empty optional values and resolves the purpose into tag 62, so the
 parser gives back a normalised record, `Canonical(q)`, and exactly the
 original record when it is already in that form.
 */
module VietQRCodec {
  import opened SwiftRuntime
  import opened Tlv
  import opened VietQRModel
  import opened VietQRParser
  import opened VietQRGenerator

  /** Every value the generator writes, at each of the three nesting
      levels, is shorter than 100 characters, so its `%02d` length has the
      two digits the parser reads. */
  predicate Encodable(q: VietQR) {
    WellFormed(BnbFields(q)) && WellFormed(MerchantFields(q)) &&
    WellFormed(AdditionalItems(q)) && WellFormed(PayloadFields(q))
  }

  /** The additional data with every empty sub-field made absent. */
  function StripData(d: AdditionalData): (r: AdditionalData)
    ensures AdditionalFields(r) == AdditionalFields(d)
  {
    AdditionalData(NonEmpty(d.billNumber), NonEmpty(d.mobileNumber), NonEmpty(d.store),
                   NonEmpty(d.loyaltyNumber), NonEmpty(d.reference), NonEmpty(d.customerLabel),
                   NonEmpty(d.terminal), NonEmpty(d.purpose))
  }

  /** The additional data as tag 62 carries it: the stripped block when it
      has a non-empty sub-field, otherwise a block holding only a non-empty
      top-level purpose, otherwise none. */
  function CanonicalData(q: VietQR): Option<AdditionalData> {
    if q.additionalData.Some? then
      var s := StripData(q.additionalData.value);
      if s == NoAdditionalData then None else Some(s)
    else if NonEmpty(q.purpose).Some? then Some(NoAdditionalData.(purpose := q.purpose))
    else None
  }

  /** The record as the payload describes it: empty account name and amount
      made absent, the additional data of `CanonicalData` and the purpose
      read from it. */
  function Canonical(q: VietQR): VietQR {
    var data := CanonicalData(q);
    VietQR(q.bankBin, q.accountNumber, NonEmpty(q.accountName), NonEmpty(q.amount),
           if data.Some? then data.value.purpose else None, q.serviceCode, data)
  }

  // ---------------------------------------------------------------------
  // Dictionaries of the data objects the generator writes
  // ---------------------------------------------------------------------

  lemma ToMapCons(f: Field, rest: seq<Field>)
    ensures ToMap([f] + rest) == map[f.tag := f.value] + ToMap(rest)
  {
    assert ([f] + rest)[1..] == rest;
  }

  /** The dictionary of an optional data object holds at most its own tag,
      with the value when it is non-empty. */
  lemma ToMapOptional(tag: string, o: Option<string>)
    ensures forall t :: t in ToMap(Optional(tag, o)) ==> t == tag
    ensures Lookup(ToMap(Optional(tag, o)), tag) == NonEmpty(o)
  {
    if NonEmpty(o).Some? {
      ToMapCons(Field(tag, o.value), []);
      assert [Field(tag, o.value)] + [] == Optional(tag, o);
    }
  }

  lemma ToMapThree(a: Field, b: Field, c: Field)
    ensures ToMap([a, b, c]) == map[a.tag := a.value] + map[b.tag := b.value] + map[c.tag := c.value]
  {
    ToMapCons(a, [b, c]);
    assert [a] + [b, c] == [a, b, c];
    ToMapCons(b, [c]);
    assert [b] + [c] == [b, c];
    ToMapCons(c, []);
    assert [c] + [] == [c];
  }

  lemma ToMapFour(a: Field, b: Field, c: Field, d: Field)
    ensures ToMap([a, b, c, d]) == map[a.tag := a.value] + (map[b.tag := b.value] + map[c.tag := c.value] + map[d.tag := d.value])
  {
    ToMapCons(a, [b, c, d]);
    assert [a] + [b, c, d] == [a, b, c, d];
    ToMapThree(b, c, d);
  }

  /** A list of data objects serializes to nothing exactly when it is empty. */
  lemma SerializeEmpty(fields: seq<Field>)
    ensures Serialize(fields) == "" <==> fields == []
  {
    if fields != [] {
      assert |Serialize(fields)| >= |BuildTLV(fields[0].tag, fields[0].value)|;
    }
  }

  /** A lookup after appending one data object. */
  lemma LookupAfterOne(a: seq<Field>, f: Field, t: string)
    ensures Lookup(ToMap(a + [f]), t) == if t == f.tag then Some(f.value) else Lookup(ToMap(a), t)
  {
    ToMapAppend(a, [f]);
    ToMapCons(f, []);
    assert [f] + [] == [f];
  }

  /** A lookup after appending an optional data object. */
  lemma LookupAfterOptional(a: seq<Field>, tag: string, o: Option<string>, t: string)
    ensures Lookup(ToMap(a + Optional(tag, o)), t) ==
              if t == tag && NonEmpty(o).Some? then NonEmpty(o) else Lookup(ToMap(a), t)
  {
    if NonEmpty(o).Some? {
      LookupAfterOne(a, Field(tag, o.value), t);
    } else {
      assert a + Optional(tag, o) == a;
    }
  }

  /** A lookup after appending tag 62 when it has anything to carry. */
  lemma LookupAfterBlock(a: seq<Field>, q: VietQR, t: string)
    ensures Lookup(ToMap(a + AdditionalBlock(q)), t) ==
              if t == "62" && AdditionalBlock(q) != [] then Some(Serialize(AdditionalItems(q)))
              else Lookup(ToMap(a), t)
  {
    if AdditionalBlock(q) != [] {
      LookupAfterOne(a, Field("62", Serialize(AdditionalItems(q))), t);
    } else {
      assert a + AdditionalBlock(q) == a;
    }
  }

  /** One lookup in the top-level dictionary, part by part from the end. */
  lemma PayloadKey(q: VietQR, t: string)
    ensures Lookup(ToMap(PayloadFields(q)), t) ==
              if t == "62" && AdditionalBlock(q) != [] then Some(Serialize(AdditionalItems(q)))
              else if t == "59" && NonEmpty(q.accountName).Some? then NonEmpty(q.accountName)
              else if t == "58" then Some("VN")
              else if t == "54" && NonEmpty(q.amount).Some? then NonEmpty(q.amount)
              else Lookup(ToMap([Field("00", "01"), Field("01", InitiationMethod(q)),
                                 Field("38", Serialize(MerchantFields(q))), Field("53", "704")]), t)
  {
    var fixed := [Field("00", "01"), Field("01", InitiationMethod(q)),
                  Field("38", Serialize(MerchantFields(q))), Field("53", "704")];
    var p1 := fixed + Optional("54", q.amount);
    var p2 := p1 + [Field("58", "VN")];
    var p3 := p2 + Optional("59", q.accountName);
    LookupAfterBlock(p3, q, t);
    LookupAfterOptional(p2, "59", q.accountName, t);
    LookupAfterOne(p1, Field("58", "VN"), t);
    LookupAfterOptional(fixed, "54", q.amount, t);
  }

  /** The dictionary of the four data objects every payload starts with. */
  lemma FixedLookups(im: string, merchant: string)
    ensures var m := ToMap([Field("00", "01"), Field("01", im), Field("38", merchant), Field("53", "704")]);
            && Lookup(m, "00") == Some("01") && Lookup(m, "38") == Some(merchant)
            && Lookup(m, "54") == None && Lookup(m, "59") == None && Lookup(m, "62") == None
  {
    ToMapFour(Field("00", "01"), Field("01", im), Field("38", merchant), Field("53", "704"));
  }

  /** What the top-level dictionary holds under the tags `parse` reads. */
  lemma PayloadLookups(q: VietQR)
    ensures var m := ToMap(PayloadFields(q));
            && Lookup(m, "00") == Some("01")
            && Lookup(m, "38") == Some(Serialize(MerchantFields(q)))
            && Lookup(m, "54") == NonEmpty(q.amount)
            && Lookup(m, "59") == NonEmpty(q.accountName)
            && Lookup(m, "62") == if AdditionalBlock(q) == [] then None else Some(Serialize(AdditionalItems(q)))
  {
    FixedLookups(InitiationMethod(q), Serialize(MerchantFields(q)));
    PayloadKey(q, "00");
    PayloadKey(q, "38");
    PayloadKey(q, "54");
    PayloadKey(q, "59");
    PayloadKey(q, "62");
  }

  /** A lookup in the dictionary of a single data object. */
  lemma LookupSingle(f: Field, t: string)
    ensures Lookup(ToMap([f]), t) == if t == f.tag then Some(f.value) else None
  {
    LookupAfterOne([], f, t);
    assert [] + [f] == [f];
  }

  /** The merchant account information scans back to the NAPAS identifier,
      the serialized bank/account block and the service code, and that
      block to the bank BIN and account number. */
  lemma MerchantLookups(q: VietQR)
    requires WellFormed(BnbFields(q)) && WellFormed(MerchantFields(q))
    ensures Scan(Serialize(MerchantFields(q))) == Done(ToMap(MerchantFields(q)))
    ensures var m := ToMap(MerchantFields(q));
            && Lookup(m, "00") == Some(Guid) && Lookup(m, "01") == Some(Serialize(BnbFields(q)))
            && Lookup(m, "02") == Some(q.serviceCode)
    ensures Scan(Serialize(BnbFields(q))) == Done(ToMap(BnbFields(q)))
    ensures Lookup(ToMap(BnbFields(q)), "00") == Some(q.bankBin)
    ensures Lookup(ToMap(BnbFields(q)), "01") == Some(q.accountNumber)
  {
    ScanOfSerialize(MerchantFields(q));
    ScanOfSerialize(BnbFields(q));
    var g, b, c := Field("00", Guid), Field("01", Serialize(BnbFields(q))), Field("02", q.serviceCode);
    assert MerchantFields(q) == [g] + [b] + [c];
    LookupAfterOne([g] + [b], c, "00");
    LookupAfterOne([g] + [b], c, "01");
    LookupAfterOne([g] + [b], c, "02");
    LookupAfterOne([g], b, "00");
    LookupAfterOne([g], b, "01");
    LookupSingle(g, "00");
    var bin, acct := Field("00", q.bankBin), Field("01", q.accountNumber);
    assert BnbFields(q) == [bin] + [acct];
    LookupAfterOne([bin], acct, "00");
    LookupAfterOne([bin], acct, "01");
    LookupSingle(bin, "00");
  }

  /** One lookup in the dictionary of an additional-data block, sub-tag by
      sub-tag from the end. */
  lemma AdditionalKey(d: AdditionalData, t: string)
    ensures Lookup(ToMap(AdditionalFields(d)), t) ==
              if t == "08" && NonEmpty(d.purpose).Some? then NonEmpty(d.purpose)
              else if t == "07" && NonEmpty(d.terminal).Some? then NonEmpty(d.terminal)
              else if t == "06" && NonEmpty(d.customerLabel).Some? then NonEmpty(d.customerLabel)
              else if t == "05" && NonEmpty(d.reference).Some? then NonEmpty(d.reference)
              else if t == "04" && NonEmpty(d.loyaltyNumber).Some? then NonEmpty(d.loyaltyNumber)
              else if t == "03" && NonEmpty(d.store).Some? then NonEmpty(d.store)
              else if t == "02" && NonEmpty(d.mobileNumber).Some? then NonEmpty(d.mobileNumber)
              else if t == "01" && NonEmpty(d.billNumber).Some? then NonEmpty(d.billNumber)
              else None
  {
    var p1 := Optional("01", d.billNumber);
    var p2 := p1 + Optional("02", d.mobileNumber);
    var p3 := p2 + Optional("03", d.store);
    var p4 := p3 + Optional("04", d.loyaltyNumber);
    var p5 := p4 + Optional("05", d.reference);
    var p6 := p5 + Optional("06", d.customerLabel);
    var p7 := p6 + Optional("07", d.terminal);
    LookupAfterOptional(p7, "08", d.purpose, t);
    LookupAfterOptional(p6, "07", d.terminal, t);
    LookupAfterOptional(p5, "06", d.customerLabel, t);
    LookupAfterOptional(p4, "05", d.reference, t);
    LookupAfterOptional(p3, "04", d.loyaltyNumber, t);
    LookupAfterOptional(p2, "03", d.store, t);
    LookupAfterOptional(p1, "02", d.mobileNumber, t);
    LookupAfterOptional([], "01", d.billNumber, t);
    assert [] + Optional("01", d.billNumber) == p1;
  }

  /** Sub-tag by sub-tag, the dictionary of a written additional-data block
      holds the non-empty sub-fields and nothing else. */
  lemma AdditionalDecodes(d: AdditionalData)
    ensures AdditionalFrom(ToMap(AdditionalFields(d))) == StripData(d)
  {
    AdditionalDecodesFirst(d);
    AdditionalDecodesLast(d);
  }

  lemma AdditionalDecodesFirst(d: AdditionalData)
    ensures var m := ToMap(AdditionalFields(d));
            Lookup(m, "01") == NonEmpty(d.billNumber) && Lookup(m, "02") == NonEmpty(d.mobileNumber) &&
            Lookup(m, "03") == NonEmpty(d.store) && Lookup(m, "04") == NonEmpty(d.loyaltyNumber)
  {
    AdditionalKey(d, "01");
    AdditionalKey(d, "02");
    AdditionalKey(d, "03");
    AdditionalKey(d, "04");
  }

  lemma AdditionalDecodesLast(d: AdditionalData)
    ensures var m := ToMap(AdditionalFields(d));
            Lookup(m, "05") == NonEmpty(d.reference) && Lookup(m, "06") == NonEmpty(d.customerLabel) &&
            Lookup(m, "07") == NonEmpty(d.terminal) && Lookup(m, "08") == NonEmpty(d.purpose)
  {
    AdditionalKey(d, "05");
    AdditionalKey(d, "06");
    AdditionalKey(d, "07");
    AdditionalKey(d, "08");
  }

  /** A written additional-data block is empty exactly when no sub-field is
      non-empty. */
  lemma AdditionalFieldsEmpty(d: AdditionalData)
    ensures AdditionalFields(d) == [] <==> StripData(d) == NoAdditionalData
  {
  }

  /** What tag 62 decodes to: nothing exactly when `CanonicalData` is
      nothing, and otherwise the block `CanonicalData` describes. */
  lemma AdditionalRoundTrip(q: VietQR)
    requires WellFormed(AdditionalItems(q))
    ensures AdditionalBlock(q) == [] <==> CanonicalData(q).None?
    ensures AdditionalBlock(q) != [] ==>
              Scan(Serialize(AdditionalItems(q))) == Done(ToMap(AdditionalItems(q))) &&
              Some(AdditionalFrom(ToMap(AdditionalItems(q)))) == CanonicalData(q)
  {
    var items := AdditionalItems(q);
    SerializeEmpty(items);
    ScanOfSerialize(items);
    if q.additionalData.Some? {
      AdditionalDecodes(q.additionalData.value);
      AdditionalFieldsEmpty(q.additionalData.value);
    } else {
      ToMapOptional("08", q.purpose);
    }
  }

  // ---------------------------------------------------------------------
  // The round trip
  // ---------------------------------------------------------------------

  /** The generated payload scans to the dictionary of its data objects
      with the checksum under tag 63. */
  lemma EncodeScans(q: VietQR)
    requires WellFormed(PayloadFields(q))
    ensures Scan(Encode(q)) == Done(ToMap(PayloadFields(q))["63" := CrcText(Payload(q))])
  {
    var crc := CrcText(Payload(q));
    assert Encode(q) == Serialize(PayloadFields(q)) + "6304" + crc;
    ScanWithChecksum(PayloadFields(q), crc);
  }

  /** `Decode` on any dictionary holding what the generator writes under
      the tags `parse` reads. */
  lemma DecodeGenerated(m: Fields, q: VietQR)
    requires WellFormed(BnbFields(q)) && WellFormed(MerchantFields(q)) && WellFormed(AdditionalItems(q))
    requires Lookup(m, "00") == Some("01") && Lookup(m, "38") == Some(Serialize(MerchantFields(q)))
    requires Lookup(m, "54") == NonEmpty(q.amount) && Lookup(m, "59") == NonEmpty(q.accountName)
    requires Lookup(m, "62") == if AdditionalBlock(q) == [] then None else Some(Serialize(AdditionalItems(q)))
    ensures Decode(m) == Done(Some(Canonical(q)))
  {
    MerchantLookups(q);
    AdditionalRoundTrip(q);
  }

  /** `parse(from: generate(from: q))` gives back `Canonical(q)` whenever
      every value fits its two-digit length: the bank BIN, account number
      and service code as they are, the non-empty account name, amount and
      additional data, and the purpose as tag 62 carries it. */
  lemma RoundTrip(q: VietQR)
    requires Encodable(q)
    ensures Parse(Encode(q)) == Done(Some(Canonical(q)))
  {
    EncodeScans(q);
    PayloadLookups(q);
    var p := ToMap(PayloadFields(q));
    var m := p["63" := CrcText(Payload(q))];
    assert Lookup(m, "00") == Lookup(p, "00") && Lookup(m, "38") == Lookup(p, "38");
    assert Lookup(m, "54") == Lookup(p, "54") && Lookup(m, "59") == Lookup(p, "59");
    assert Lookup(m, "62") == Lookup(p, "62");
    DecodeGenerated(m, q);
  }

  /** The generator writes a record and its canonical form alike. */
  lemma CanonicalItems(q: VietQR)
    ensures AdditionalItems(Canonical(q)) == AdditionalItems(q)
    ensures PayloadFields(Canonical(q)) == PayloadFields(q)
  {
    if q.additionalData.Some? {
      AdditionalFieldsEmpty(q.additionalData.value);
    }
  }

  /** Normalising does not change the payload. */
  lemma EncodeCanonical(q: VietQR)
    ensures Encode(Canonical(q)) == Encode(q)
    ensures Encodable(Canonical(q)) <==> Encodable(q)
  {
    CanonicalItems(q);
  }

  /** Normalising twice is normalising once. */
  lemma CanonicalIdempotent(q: VietQR)
    ensures Canonical(Canonical(q)) == Canonical(q)
  {
  }

  /** The parser returns the very record the generator was given exactly
      when that record is already canonical. */
  lemma ExactRoundTrip(q: VietQR)
    requires Encodable(q)
    ensures Parse(Encode(q)) == Done(Some(q)) <==> q == Canonical(q)
  {
    RoundTrip(q);
  }

  /** Regenerating a parsed payload reproduces it: what the parser returns
      for a generated payload is written back as the same text. */
  lemma RegenerateStable(q: VietQR)
    requires Encodable(q)
    ensures Parse(Encode(q)).Done? && Parse(Encode(q)).value.Some?
    ensures Encode(Parse(Encode(q)).value.value) == Encode(q)
  {
    RoundTrip(q);
    EncodeCanonical(q);
  }

  /** A record built by `init` from a bank BIN, an account number and
      optional account name, amount and purpose that are absent or
      non-empty comes back from the parser unchanged. */
  lemma InitRoundTrip(bankBin: string, accountNumber: string, accountName: Option<string>,
                      amount: Option<string>, purpose: Option<string>)
    requires NonEmpty(accountName) == accountName && NonEmpty(amount) == amount
    requires NonEmpty(purpose) == purpose
    requires Encodable(Init(bankBin, accountNumber, accountName, amount, purpose))
    ensures var q := Init(bankBin, accountNumber, accountName, amount, purpose);
            Parse(Encode(q)) == Done(Some(q))
  {
    var q := Init(bankBin, accountNumber, accountName, amount, purpose);
    RoundTrip(q);
    assert Canonical(q) == q;
  }
}
