/**
 The payloads and records of the package's own tests and of the NAPAS
 sample its demo app parses, stated as lemmas about the model.
 */
module VietQRExamples {
  import opened SwiftRuntime
  import opened Tlv
  import opened VietQRModel
  import opened VietQRParser
  import opened VietQRGenerator
  import opened VietQRCodec
  import BankQRFactory

  /** A negative length field traps `parseTLV`, and with it `canParse` and
      `parse`. */
  lemma NegativeLengthTrapsParse()
    ensures Scan("00-1") == Trap
    ensures CanParse("00-1") == Trap && Parse("00-1") == Trap
    ensures BankQRFactory.ParseWith([BankQRFactory.VietQRKind], "00-1") == Trap
  {
    assert "00-1"[2..4] == "-1";
    ParseIntOfTwo("-1");
    NegativeLengthTraps("00-1");
    BankQRFactory.TrapStopsDetection([BankQRFactory.VietQRKind], "00-1");
  }

  /** An empty string is not a VietQR payload. */
  lemma RejectsEmpty()
    ensures Parse("") == Done(None)
  {
    StopsScansNothing("");
  }

  /** Text whose second pair of characters is not a length is not a VietQR
      payload. */
  lemma RejectsInvalidText()
    ensures Parse("invalid_qr_string") == Done(None)
  {
    assert ParseInt("invalid_qr_string"[2..4]).None? by {
      assert "invalid_qr_string"[2..4] == "va";
    }
    StopsScansNothing("invalid_qr_string");
  }

  /** The data objects of the test's payload without merchant account
      information. */
  const NoMerchantFields := [Field("00", "01"), Field("01", "12"), Field("53", "704"),
                             Field("58", "VN"), Field("63", "XXXX")]

  lemma NoMerchantText()
    ensures Serialize(NoMerchantFields) == "000201" + "010212" + "5303704" + "5802VN" + "6304XXXX"
  {
    var f := NoMerchantFields;
    SerializeFive(f[0], f[1], f[2], f[3], f[4]);
    assert BuildTLV("00", "01") == "000201" && BuildTLV("01", "12") == "010212" by {
      assert Format02d(2) == "02";
    }
    assert BuildTLV("53", "704") == "5303704" by {
      assert Format02d(3) == "03";
    }
    assert BuildTLV("58", "VN") == "5802VN" by {
      assert Format02d(2) == "02";
    }
    assert BuildTLV("63", "XXXX") == "6304XXXX" by {
      assert Format02d(4) == "04";
    }
  }

  lemma NoMerchantLiteral()
    ensures "00020101021253037045802VN6304XXXX" ==
              "000201" + "010212" + "5303704" + "5802VN" + "6304XXXX"
  {
  }

  lemma NoMerchantScan()
    ensures Scan(Serialize(NoMerchantFields)) == Done(ToMap(NoMerchantFields))
    ensures "38" !in ToMap(NoMerchantFields)
  {
    ScanOfSerialize(NoMerchantFields);
    ToMapKeys(NoMerchantFields, "38");
  }

  /** A payload without tag 38 is refused, whatever its checksum. */
  lemma RejectsMissingMerchantInfo()
    ensures Parse("00020101021253037045802VN6304XXXX") == Done(None)
  {
    NoMerchantText();
    NoMerchantLiteral();
    NoMerchantScan();
  }

  lemma SerializeFive(a: Field, b: Field, c: Field, d: Field, e: Field)
    ensures Serialize([a, b, c, d, e]) ==
              BuildTLV(a.tag, a.value) + BuildTLV(b.tag, b.value) + BuildTLV(c.tag, c.value)
              + BuildTLV(d.tag, d.value) + BuildTLV(e.tag, e.value)
  {
    SerializeOne(a);
    SerializeOne(b);
    SerializeOne(c);
    SerializeOne(d);
    SerializeOne(e);
    SerializeAppend([a], [b]);
    SerializeAppend([a, b], [c]);
    SerializeAppend([a, b, c], [d]);
    SerializeAppend([a, b, c, d], [e]);
    assert [a] + [b] == [a, b] && [a, b] + [c] == [a, b, c];
    assert [a, b, c] + [d] == [a, b, c, d] && [a, b, c, d] + [e] == [a, b, c, d, e];
  }

  lemma SerializeOne(f: Field)
    ensures Serialize([f]) == BuildTLV(f.tag, f.value)
  {
    assert [f][1..] == [];
  }

  lemma SerializeSeven(a: Field, b: Field, c: Field, d: Field, e: Field, f: Field, g: Field)
    ensures Serialize([a, b, c, d, e, f, g]) ==
              BuildTLV(a.tag, a.value) + BuildTLV(b.tag, b.value) + BuildTLV(c.tag, c.value)
              + BuildTLV(d.tag, d.value) + BuildTLV(e.tag, e.value) + BuildTLV(f.tag, f.value)
              + BuildTLV(g.tag, g.value)
  {
    SerializeFive(a, b, c, d, e);
    SerializeOne(f);
    SerializeOne(g);
    SerializeAppend([a, b, c, d, e], [f]);
    SerializeAppend([a, b, c, d, e, f], [g]);
    assert [a, b, c, d, e] + [f] == [a, b, c, d, e, f];
    assert [a, b, c, d, e, f] + [g] == [a, b, c, d, e, f, g];
  }

  /** The record the NAPAS sample describes: bank BIN 970436, account
      0011001800879, amount 100000, purpose "nhan tien", service code
      QRIBFTTA, no account name. */
  const SampleRecord := VietQR("970436", "0011001800879", None, Some("100000"), Some("nhan tien"),
                               "QRIBFTTA", Some(NoAdditionalData.(purpose := Some("nhan tien"))))

  /** The NAPAS sample the demo app parses, cut at its data objects. */
  const NapasSample := "000201" + "010212"
                       + ("3857" + SampleMerchant)
                       + "5303704" + "5406100000" + "5802VN" + "62130809nhan tien" + "6304" + "D1EF"

  /** The bank/account block of the sample. */
  lemma SampleBnbText()
    ensures Serialize(BnbFields(SampleRecord)) == "0006970436" + "0113" + "0011001800879"
  {
    var b := BnbFields(SampleRecord);
    SerializeOne(b[1]);
    SerializeCons(b[0], [b[1]]);
    assert BuildTLV("00", "970436") == "0006970436" by {
      assert Format02d(6) == "06";
    }
    assert BuildTLV("01", "0011001800879") == "0113" + "0011001800879" by {
      assert Format02d(13) == "13";
    }
  }

  /** The merchant account information of the sample, the value of its
      tag 38. */
  const SampleMerchant := "0010A000000727" + "0127" + ("0006970436" + "0113" + "0011001800879")
                          + "0208QRIBFTTA"

  lemma SampleMerchantText()
    ensures Serialize(MerchantFields(SampleRecord)) == SampleMerchant
  {
    SampleBnbText();
    var m := MerchantFields(SampleRecord);
    SerializeOne(m[2]);
    SerializeCons(m[1], [m[2]]);
    assert m[1..] == [m[1], m[2]];
    SerializeCons(m[0], m[1..]);
    SampleMerchantObjects();
  }

  lemma SampleMerchantObjects()
    ensures BuildTLV("00", Guid) == "0010A000000727"
    ensures BuildTLV("01", "0006970436" + "0113" + "0011001800879") ==
              "0127" + ("0006970436" + "0113" + "0011001800879")
    ensures BuildTLV("02", "QRIBFTTA") == "0208QRIBFTTA"
  {
    assert BuildTLV("00", Guid) == "0010A000000727" by {
      assert Format02d(10) == "10";
    }
    SampleBnbObject();
    assert BuildTLV("02", "QRIBFTTA") == "0208QRIBFTTA" by {
      assert Format02d(8) == "08";
    }
  }

  lemma SampleBnbObject()
    ensures BuildTLV("01", "0006970436" + "0113" + "0011001800879") ==
              "0127" + ("0006970436" + "0113" + "0011001800879")
  {
    assert |"0006970436" + "0113" + "0011001800879"| == 27;
    assert Format02d(27) == "27";
  }

  lemma SampleAdditionalText()
    ensures AdditionalBlock(SampleRecord) == [Field("62", "0809nhan tien")]
  {
    var d := SampleRecord.additionalData.value;
    assert AdditionalFields(d) == [Field("08", "nhan tien")];
    SerializeOne(Field("08", "nhan tien"));
    assert BuildTLV("08", "nhan tien") == "0809nhan tien" by {
      assert Format02d(9) == "09";
    }
  }

  /** The data objects the generator writes for `SampleRecord`. */
  lemma SampleFields()
    ensures PayloadFields(SampleRecord) ==
              [Field("00", "01"), Field("01", "12"), Field("38", SampleMerchant),
               Field("53", "704"), Field("54", "100000"), Field("58", "VN"),
               Field("62", "0809nhan tien")]
  {
    SampleMerchantText();
    SampleAdditionalText();
  }

  lemma SampleMerchantObject()
    ensures |SampleMerchant| == 57
    ensures BuildTLV("38", SampleMerchant) == "3857" + SampleMerchant
  {
    assert Format02d(57) == "57";
  }

  lemma SampleObjects()
    ensures BuildTLV("00", "01") == "000201" && BuildTLV("01", "12") == "010212"
    ensures BuildTLV("53", "704") == "5303704" && BuildTLV("54", "100000") == "5406100000"
    ensures BuildTLV("58", "VN") == "5802VN" && BuildTLV("62", "0809nhan tien") == "62130809nhan tien"
  {
    SampleHeaderObjects();
    SampleTailObjects();
  }

  lemma SampleHeaderObjects()
    ensures BuildTLV("00", "01") == "000201" && BuildTLV("01", "12") == "010212"
    ensures BuildTLV("53", "704") == "5303704"
  {
    assert Format02d(2) == "02" && Format02d(3) == "03";
  }

  lemma SampleTailObjects()
    ensures BuildTLV("54", "100000") == "5406100000" && BuildTLV("58", "VN") == "5802VN"
    ensures BuildTLV("62", "0809nhan tien") == "62130809nhan tien"
  {
    assert BuildTLV("54", "100000") == "5406100000" by {
      assert Format02d(6) == "06";
    }
    assert BuildTLV("58", "VN") == "5802VN" by {
      assert Format02d(2) == "02";
    }
    SampleAdditionalObject();
  }

  lemma SampleAdditionalObject()
    ensures BuildTLV("62", "0809nhan tien") == "62130809nhan tien"
  {
    assert Format02d(13) == "13";
  }

  /** The sample is what the generator writes for `SampleRecord`, up to
      the four checksum characters. */
  lemma SampleLayout()
    ensures NapasSample == Serialize(PayloadFields(SampleRecord)) + "6304" + "D1EF"
  {
    SampleFields();
    SerializeSeven(Field("00", "01"), Field("01", "12"), Field("38", SampleMerchant),
                   Field("53", "704"), Field("54", "100000"), Field("58", "VN"),
                   Field("62", "0809nhan tien"));
    SampleMerchantObject();
    SampleObjects();
  }

  /** Every value of `SampleRecord` fits its two-digit length. */
  lemma SampleEncodable()
    ensures Encodable(SampleRecord)
  {
    SampleMerchantWellFormed();
    SamplePayloadWellFormed();
    assert AdditionalItems(SampleRecord) == [Field("08", "nhan tien")];
  }

  lemma SampleMerchantWellFormed()
    ensures WellFormed(BnbFields(SampleRecord)) && WellFormed(MerchantFields(SampleRecord))
  {
    SampleBnbText();
    var m := MerchantFields(SampleRecord);
    assert |m[1].value| == 27;
  }

  lemma SamplePayloadWellFormed()
    ensures WellFormed(PayloadFields(SampleRecord))
  {
    SampleFields();
    SampleMerchantObject();
    WellFormedSeven(PayloadFields(SampleRecord));
  }

  /** Seven data objects with two-character tags and short values. */
  lemma WellFormedSeven(f: seq<Field>)
    requires |f| == 7
    requires |f[0].tag| == 2 && |f[1].tag| == 2 && |f[2].tag| == 2 && |f[3].tag| == 2
    requires |f[4].tag| == 2 && |f[5].tag| == 2 && |f[6].tag| == 2
    requires |f[0].value| < 100 && |f[1].value| < 100 && |f[2].value| < 100 && |f[3].value| < 100
    requires |f[4].value| < 100 && |f[5].value| < 100 && |f[6].value| < 100
    ensures WellFormed(f)
  {
    forall i | 0 <= i < 7
      ensures |f[i].tag| == 2 && |f[i].value| < 100
    {
      if i < 4 {
        assert i == 0 || i == 1 || i == 2 || i == 3;
      } else {
        assert i == 4 || i == 5 || i == 6;
      }
    }
  }

  /** The NAPAS sample parses to `SampleRecord`. */
  lemma ParsesNapasSample()
    ensures Parse(NapasSample) == Done(Some(SampleRecord))
  {
    var q := SampleRecord;
    SampleLayout();
    SampleEncodable();
    ExactRoundTrip(q);
    assert Canonical(q) == q;
    var crc := CrcText(Payload(q));
    assert Encode(q) == Serialize(PayloadFields(q)) + "6304" + crc;
    ParseIgnoresChecksum(PayloadFields(q), "D1EF", crc);
  }

  /** Generating from the parsed sample writes the same data objects and
      "6304" again, so the regenerated payload differs from the sample at
      most in the four checksum characters. */
  lemma RegeneratesNapasSample()
    ensures Payload(SampleRecord) == NapasSample[..|NapasSample| - 4]
  {
    SampleLayout();
    var p := Serialize(PayloadFields(SampleRecord)) + "6304";
    assert NapasSample == p + "D1EF";
    assert (p + "D1EF")[..|p|] == p;
  }

  /** The record of the package's generate-and-parse test. */
  const TestRecord := Init("970436", "00110018008790", None, Some("100000"), Some("test payment"))

  lemma TestMerchantWellFormed()
    ensures WellFormed(BnbFields(TestRecord)) && WellFormed(MerchantFields(TestRecord))
    ensures |Serialize(MerchantFields(TestRecord))| == 58
  {
    var b := BnbFields(TestRecord);
    SerializeOne(b[1]);
    SerializeCons(b[0], [b[1]]);
    var m := MerchantFields(TestRecord);
    assert |m[1].value| == 28;
    SerializeOne(m[2]);
    SerializeCons(m[1], [m[2]]);
    assert m[1..] == [m[1], m[2]];
    SerializeCons(m[0], m[1..]);
  }

  lemma TestAdditionalWellFormed()
    ensures WellFormed(AdditionalItems(TestRecord))
    ensures AdditionalBlock(TestRecord) == [Field("62", Serialize(AdditionalItems(TestRecord)))]
    ensures |Serialize(AdditionalItems(TestRecord))| == 16
  {
    var items := AdditionalItems(TestRecord);
    assert items == [Field("08", "test payment")];
    SerializeOne(items[0]);
  }

  lemma TestFields()
    ensures PayloadFields(TestRecord) ==
              [Field("00", "01"), Field("01", "12"), Field("38", Serialize(MerchantFields(TestRecord))),
               Field("53", "704"), Field("54", "100000"), Field("58", "VN"),
               Field("62", Serialize(AdditionalItems(TestRecord)))]
  {
    TestAdditionalWellFormed();
  }

  lemma TestPayloadWellFormed()
    ensures WellFormed(PayloadFields(TestRecord))
  {
    TestMerchantWellFormed();
    TestAdditionalWellFormed();
    TestFields();
    WellFormedSeven(PayloadFields(TestRecord));
  }

  /** Generating the test's record and parsing the result gives back the
      record, with bank BIN, account number, amount and purpose intact. */
  lemma TestRoundTrip()
    ensures Parse(Encode(TestRecord)) == Done(Some(TestRecord))
    ensures TestRecord.bankBin == "970436" && TestRecord.accountNumber == "00110018008790"
    ensures TestRecord.amount == Some("100000") && TestRecord.purpose == Some("test payment")
  {
    TestMerchantWellFormed();
    TestAdditionalWellFormed();
    TestPayloadWellFormed();
    InitRoundTrip("970436", "00110018008790", None, Some("100000"), Some("test payment"));
  }

  /** The demo's sample string, character for character, written in four
      parts at data-object boundaries. */
  const DemoSample := "00020101021238570010A000000727" + "0127000697043601130011001800879"
                      + "0208QRIBFTTA53037045406100000" + "5802VN62130809nhan tien6304D1EF"

  lemma DemoFirst()
    ensures "00020101021238570010A000000727" == "000201" + "010212" + "3857" + "0010A000000727"
  {
  }

  lemma DemoSecond()
    ensures "0127000697043601130011001800879" == "0127" + "0006970436" + "0113" + "0011001800879"
  {
  }

  lemma DemoThird()
    ensures "0208QRIBFTTA53037045406100000" == "0208QRIBFTTA" + "5303704" + "5406100000"
  {
  }

  lemma DemoFourth()
    ensures "5802VN62130809nhan tien6304D1EF" == "5802VN" + "62130809nhan tien" + "6304" + "D1EF"
  {
  }

  /** The grouping of `NapasSample` regrouped as the four parts of `DemoSample`. */
  lemma RegroupSample(p1: string, p2: string, p3: string, p4: string, p5: string,
                      p6: string, p7: string, p8: string, p9: string, p10: string,
                      p11: string, p12: string, p13: string, p14: string, p15: string)
    ensures p1 + p2 + (p3 + (p4 + p5 + (p6 + p7 + p8) + p9)) + p10 + p11 + p12 + p13 + p14 + p15
            == (p1 + p2 + p3 + p4) + (p5 + p6 + p7 + p8) + (p9 + p10 + p11) + (p12 + p13 + p14 + p15)
  {
    var m := p4 + p5 + (p6 + p7 + p8) + p9;
    assert m == p4 + (p5 + p6 + p7 + p8) + p9;
    assert p1 + p2 + (p3 + m) == (p1 + p2 + p3 + p4) + (p5 + p6 + p7 + p8) + p9;
  }

  /** `NapasSample`, written data object by data object, is the demo's string. */
  lemma NapasSampleIsDemoSample()
    ensures NapasSample == DemoSample
  {
    DemoFirst();
    DemoSecond();
    DemoThird();
    DemoFourth();
    RegroupSample("000201", "010212", "3857", "0010A000000727", "0127", "0006970436", "0113",
                  "0011001800879", "0208QRIBFTTA", "5303704", "5406100000", "5802VN",
                  "62130809nhan tien", "6304", "D1EF");
  }
}
