/**
 The semantic decoder of VietQRParser: `canParse` and `parse(from:)`
 read three levels of nested data objects: the payload, the merchant
 account information in tag 38, and the bank/account block in its
 sub-tag 01, with the additional data of tag 62 beside them.
 */
module VietQRParser {
  import opened SwiftRuntime
  import opened Tlv
  import opened VietQRModel

  /** The NAPAS application identifier, sub-tag 00 of tag 38. */
  const Guid := "A000000727"

  /** `fields[tag]`: a Swift dictionary subscript. */
  function Lookup(fields: Fields, tag: string): (r: Option<string>)
    ensures r.Some? <==> tag in fields
    ensures r.Some? ==> r.value == fields[tag]
  {
    if tag in fields then Some(fields[tag]) else None
  }

  /** `canParse`: the payload format indicator is "01", tag 38 is present
      and its sub-tag 00 is the NAPAS identifier. A negative length inside
      either scan traps. */
  function CanParse(qr: string): (r: Run<bool>)
    ensures Scan(qr).Trap? ==> r.Trap?
    ensures r == Done(true) ==>
              Scan(qr).Done? && Lookup(Scan(qr).value, "00") == Some("01") &&
              "38" in Scan(qr).value
  {
    var fields :- Scan(qr);
    if Lookup(fields, "00") != Some("01") || "38" !in fields then Done(false)
    else
      var merchant :- Scan(fields["38"]);
      Done(Lookup(merchant, "00") == Some(Guid))
  }

  /** The sub-fields of tag 62 by sub-tag. */
  function AdditionalFrom(fields: Fields): (d: AdditionalData)
    ensures d.billNumber == Lookup(fields, "01") && d.mobileNumber == Lookup(fields, "02")
    ensures d.store == Lookup(fields, "03") && d.loyaltyNumber == Lookup(fields, "04")
    ensures d.reference == Lookup(fields, "05") && d.customerLabel == Lookup(fields, "06")
    ensures d.terminal == Lookup(fields, "07") && d.purpose == Lookup(fields, "08")
  {
    NoAdditionalData.(billNumber := Lookup(fields, "01"), mobileNumber := Lookup(fields, "02"),
                      store := Lookup(fields, "03"), loyaltyNumber := Lookup(fields, "04"),
                      reference := Lookup(fields, "05"), customerLabel := Lookup(fields, "06"),
                      terminal := Lookup(fields, "07"), purpose := Lookup(fields, "08"))
  }

  /** `parse(from:)`: the payload scanned once, then decoded. */
  function Parse(qr: string): (r: Run<Option<VietQR>>)
    ensures Scan(qr).Trap? ==> r.Trap?
    ensures r.Done? && r.value.Some? ==>
              Scan(qr).Done? && Lookup(Scan(qr).value, "00") == Some("01") &&
              "38" in Scan(qr).value
  {
    var fields :- Scan(qr);
    Decode(fields)
  }

  /** The body of `parse(from:)` after the first scan: the guards in the
      order the source checks them, each giving nil, then the record.
      Neither tag 63 nor the checksum is read. */
  function Decode(fields: Fields): (r: Run<Option<VietQR>>)
    ensures r.Done? && r.value.Some? ==>
              Lookup(fields, "00") == Some("01") && "38" in fields &&
              r.value.value.amount == Lookup(fields, "54") &&
              r.value.value.accountName == Lookup(fields, "59") &&
              (r.value.value.additionalData.Some? <==> "62" in fields)
  {
    if Lookup(fields, "00") != Some("01") then Done(None)
    else if "38" !in fields then Done(None)
    else
      var merchant :- Scan(fields["38"]);
      if Lookup(merchant, "00") != Some(Guid) then Done(None)
      else if "01" !in merchant then Done(None)
      else
        var bnb :- Scan(merchant["01"]);
        if "00" !in bnb || "01" !in bnb then Done(None)
        else
          var serviceCode := Lookup(merchant, "02").GetOr(DefaultServiceCode);
          var amount := Lookup(fields, "54");
          var accountName := Lookup(fields, "59");
          var additional :- if "62" in fields then
                              var sub :- Scan(fields["62"]);
                              Done(Some(AdditionalFrom(sub)))
                            else Done(None);
          var purpose := if additional.Some? then additional.value.purpose else None;
          var q := Init(bnb["00"], bnb["01"], accountName, amount, purpose);
          Done(Some(q.(serviceCode := serviceCode, additionalData := additional)))
  }

  // ---------------------------------------------------------------------
  // When `parse` accepts
  // ---------------------------------------------------------------------

  /** The decoded payload, merchant block and bank/account block are the
      ones `parse` requires, and every scan it makes gets through. */
  ghost predicate Accepted(qr: string) {
    Scan(qr).Done? &&
    var fields := Scan(qr).value;
    Lookup(fields, "00") == Some("01") && "38" in fields && Scan(fields["38"]).Done? &&
    var merchant := Scan(fields["38"]).value;
    Lookup(merchant, "00") == Some(Guid) && "01" in merchant && Scan(merchant["01"]).Done? &&
    var bnb := Scan(merchant["01"]).value;
    "00" in bnb && "01" in bnb &&
    ("62" in fields ==> Scan(fields["62"]).Done?)
  }

  /** `parse` returns a record exactly when the payload format indicator is
      "01", tag 38 holds the NAPAS identifier and a sub-tag 01, that block
      holds both a bank BIN and an account number, and no scan traps. */
  lemma ParseAcceptsExactly(qr: string)
    ensures Parse(qr).Done? && Parse(qr).value.Some? <==> Accepted(qr)
  {
  }

  /** Where `parse` returns nil: a guard failed before any scan trapped. */
  lemma ParseRejects(qr: string)
    requires Parse(qr) == Done(None)
    ensures Scan(qr).Done?
    ensures var fields := Scan(qr).value;
            Lookup(fields, "00") != Some("01") || "38" !in fields ||
            (Scan(fields["38"]).Done? &&
             var merchant := Scan(fields["38"]).value;
             Lookup(merchant, "00") != Some(Guid) || "01" !in merchant ||
             (Scan(merchant["01"]).Done? &&
              var bnb := Scan(merchant["01"]).value;
              "00" !in bnb || "01" !in bnb))
  {
  }

  /** What each field of the record is read from: bank BIN and account
      number from 38.01.00 and 38.01.01, the service code from 38.02 or
      the default, the amount from 54 and the account name from 59 as
      written (nil when absent), the additional data sub-tag by sub-tag
      from 62, and the purpose from 62.08. */
  lemma ParseFields(qr: string)
    requires Parse(qr).Done? && Parse(qr).value.Some?
    ensures var q := Parse(qr).value.value;
            var fields := Scan(qr).value;
            var merchant := Scan(fields["38"]).value;
            var bnb := Scan(merchant["01"]).value;
            && q.bankBin == bnb["00"] && q.accountNumber == bnb["01"]
            && q.serviceCode == (if "02" in merchant then merchant["02"] else "QRIBFTTA")
            && q.amount == Lookup(fields, "54")
            && q.accountName == Lookup(fields, "59")
            && (q.additionalData.Some? <==> "62" in fields)
            && ("62" in fields ==> q.additionalData == Some(AdditionalFrom(Scan(fields["62"]).value)))
            && (q.purpose.Some? ==> "62" in fields)
            && ("62" in fields ==> q.purpose == Lookup(Scan(fields["62"]).value, "08"))
  {
  }

  /** `parse` checks a superset of what `canParse` checks, in the same order,
      so a record implies `canParse`, a failing `canParse` implies nil and a
      trap in `canParse` is a trap in `parse`. */
  lemma CanParseDecides(qr: string)
    ensures Parse(qr).Done? && Parse(qr).value.Some? ==> CanParse(qr) == Done(true)
    ensures CanParse(qr) == Done(false) ==> Parse(qr) == Done(None)
    ensures CanParse(qr).Trap? ==> Parse(qr).Trap?
  {
  }

  /** `canParse` is true exactly when the payload format indicator is "01",
      tag 38 is present and its sub-tag 00 is the NAPAS identifier; it traps
      exactly when one of the two scans it needs traps; otherwise it is
      false. */
  lemma CanParseExactly(qr: string)
    ensures CanParse(qr) == Done(true) <==>
              Scan(qr).Done? && Lookup(Scan(qr).value, "00") == Some("01") &&
              "38" in Scan(qr).value && Scan(Scan(qr).value["38"]).Done? &&
              Lookup(Scan(Scan(qr).value["38"]).value, "00") == Some(Guid)
    ensures CanParse(qr).Trap? <==>
              Scan(qr).Trap? ||
              (Lookup(Scan(qr).value, "00") == Some("01") && "38" in Scan(qr).value &&
               Scan(Scan(qr).value["38"]).Trap?)
  {
  }

  /** The tags `parse` reads. */
  const ReadTags: set<string> := {"00", "38", "54", "59", "62"}

  /** A dictionary cut down to the tags `parse` reads. */
  function Relevant(fields: Fields): (r: Fields)
    ensures forall t :: t in ReadTags ==> Lookup(r, t) == Lookup(fields, t)
  {
    map t | t in fields && t in ReadTags :: fields[t]
  }

  lemma DecodeRelevant(fields: Fields)
    ensures Decode(fields) == Decode(Relevant(fields))
  {
    var r := Relevant(fields);
    assert Lookup(r, "00") == Lookup(fields, "00");
    assert Lookup(r, "38") == Lookup(fields, "38");
    assert Lookup(r, "54") == Lookup(fields, "54");
    assert Lookup(r, "59") == Lookup(fields, "59");
    assert Lookup(r, "62") == Lookup(fields, "62");
  }

  /** `parse` reads the tags 00, 38, 54, 59 and 62 and nothing else: two
      payloads that decode to dictionaries agreeing on those tags parse to
      the same record, whatever tag 63 (the checksum) or any other tag holds. */
  lemma ParseReadsOnlyItsTags(a: string, b: string)
    requires Scan(a).Done? && Scan(b).Done?
    requires forall t :: t in ReadTags ==> Lookup(Scan(a).value, t) == Lookup(Scan(b).value, t)
    ensures Parse(a) == Parse(b)
  {
    var fa, fb := Scan(a).value, Scan(b).value;
    DecodeRelevant(fa);
    DecodeRelevant(fb);
    assert Relevant(fa) == Relevant(fb) by {
      forall t | t in Relevant(fa)
        ensures t in Relevant(fb) && Relevant(fa)[t] == Relevant(fb)[t]
      {
        assert Lookup(fa, t) == Lookup(fb, t);
      }
      forall t | t in Relevant(fb)
        ensures t in Relevant(fa)
      {
        assert Lookup(fa, t) == Lookup(fb, t);
      }
    }
  }

  /** Scanning well-formed data objects followed by a four-character tag 63. */
  lemma ScanWithChecksum(fields: seq<Field>, crc: string)
    requires WellFormed(fields) && |crc| == 4
    ensures Scan(Serialize(fields) + "6304" + crc) == Done(ToMap(fields)["63" := crc])
  {
    var tail := BuildTLV("63", crc);
    assert tail == "6304" + crc by {
      assert Format02d(4) == "04";
    }
    assert Serialize(fields) + "6304" + crc == Serialize(fields) + tail;
    ScanSerialize(fields, tail);
    BuildThenScan("63", crc);
    UnionSingleton(ToMap(fields), "63", crc);
  }

  lemma UnionSingleton(m: Fields, tag: string, value: string)
    ensures m + map[tag := value] == m[tag := value]
  {
  }

  /** The checksum is never verified: well-formed data objects followed by
      "6304" and any four characters parse the same whatever the four are. */
  lemma ParseIgnoresChecksum(fields: seq<Field>, crc1: string, crc2: string)
    requires WellFormed(fields) && |crc1| == 4 && |crc2| == 4
    ensures Parse(Serialize(fields) + "6304" + crc1) == Parse(Serialize(fields) + "6304" + crc2)
  {
    ScanWithChecksum(fields, crc1);
    ScanWithChecksum(fields, crc2);
    var m := ToMap(fields);
    forall t | t in ReadTags
      ensures Lookup(m["63" := crc1], t) == Lookup(m["63" := crc2], t)
    {
    }
    ParseReadsOnlyItsTags(Serialize(fields) + "6304" + crc1, Serialize(fields) + "6304" + crc2);
  }
}
