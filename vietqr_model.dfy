/**
 The `VietQR` record: a NAPAS VietQR transfer request as the parser
 returns it and the generator consumes it.
 */
module VietQRModel {
  import opened SwiftRuntime

  /** The sub-fields of tag 62 (Additional Data Field Template), one per
      sub-tag 01 to 08. */
  datatype AdditionalData = AdditionalData(
    billNumber: Option<string>,     // 62-01
    mobileNumber: Option<string>,   // 62-02
    store: Option<string>,          // 62-03
    loyaltyNumber: Option<string>,  // 62-04
    reference: Option<string>,      // 62-05
    customerLabel: Option<string>,  // 62-06
    terminal: Option<string>,       // 62-07
    purpose: Option<string>         // 62-08
  )

  /** `AdditionalData()`: every sub-field nil. */
  const NoAdditionalData := AdditionalData(None, None, None, None, None, None, None, None)

  /** A VietQR transfer request. `bankBin` and `accountNumber` travel in
      tag 38, `accountName` in tag 59, `amount` in tag 54, `purpose` and
      `additionalData` in tag 62. */
  datatype VietQR = VietQR(
    bankBin: string,
    accountNumber: string,
    accountName: Option<string>,
    amount: Option<string>,
    purpose: Option<string>,
    serviceCode: string,
    additionalData: Option<AdditionalData>
  )

  /** Transfer to an account; "QRIBFTTC" would be a transfer to a card. */
  const DefaultServiceCode := "QRIBFTTA"

  /** `VietQR.init(bankBin:accountNumber:accountName:amount:purpose:)`: the
      five arguments stored as given, the default service code, and an
      additional-data block holding only the purpose exactly when a purpose
      is given (even an empty one). */
  function Init(bankBin: string, accountNumber: string, accountName: Option<string>,
                amount: Option<string>, purpose: Option<string>): (q: VietQR)
    ensures q.bankBin == bankBin && q.accountNumber == accountNumber
    ensures q.accountName == accountName && q.amount == amount && q.purpose == purpose
    ensures q.serviceCode == "QRIBFTTA"
    ensures q.additionalData.Some? <==> purpose.Some?
    ensures q.additionalData.Some? ==>
              q.additionalData.value.purpose == purpose &&
              q.additionalData.value.(purpose := None) == NoAdditionalData
  {
    VietQR(bankBin, accountNumber, accountName, amount, purpose, DefaultServiceCode,
           if purpose.Some? then Some(NoAdditionalData.(purpose := purpose)) else None)
  }

  /** The reference carried in the additional data, if any. */
  function Reference(q: VietQR): Option<string> {
    if q.additionalData.Some? then q.additionalData.value.reference else None
  }

  /** A `"\n<title>: <value>"` line when the value is present. */
  function Line(title: string, value: Option<string>): (r: string)
    ensures value.None? <==> r == ""
    ensures value.Some? ==> r == "\n" + title + ": " + value.value
  {
    if value.Some? then "\n" + title + ": " + value.value else ""
  }

  /** The two lines every `displayInfo` starts with. */
  function Header(q: VietQR): string {
    "Bank BIN: " + q.bankBin + "\nAccount: " + q.accountNumber
  }

  /** `displayInfo`, without the amount line (see README): the header, then
      the account name, purpose and reference lines in that order, each
      present exactly when its field is. */
  function DisplayInfo(q: VietQR): (r: string)
    ensures HasPrefix(r, Header(q))
    ensures q.accountName.None? && q.purpose.None? && Reference(q).None? <==> r == Header(q)
    ensures HasSuffix(r, Line("Reference", Reference(q)))
    ensures Reference(q).None? ==> HasSuffix(r, Line("Purpose", q.purpose))
    ensures Reference(q).None? && q.purpose.None? && q.accountName.Some? ==>
              r == Header(q) + Line("Account Name", q.accountName)
  {
    Header(q) + Line("Account Name", q.accountName) + Line("Purpose", q.purpose)
      + Line("Reference", Reference(q))
  }

  /** The lines of a text, split at every '\n' (`components(separatedBy:)`):
      one more line than there are newlines. */
  function SplitLines(s: string): (r: seq<string>)
    ensures |r| >= 1
    decreases |s|
  {
    if s == [] then [""]
    else
      var rest := SplitLines(s[1..]);
      if s[0] == '\n' then [""] + rest else [[s[0]] + rest[0]] + rest[1..]
  }

  /** The line a present field shows, or none. */
  function Entry(title: string, value: Option<string>): seq<string> {
    if value.Some? then [title + ": " + value.value] else []
  }

  /** What `displayInfo` lists, line by line: bank BIN, account, then the
      account name, purpose and reference lines of the fields present. */
  function DisplayLines(q: VietQR): seq<string> {
    ["Bank BIN: " + q.bankBin, "Account: " + q.accountNumber]
      + Entry("Account Name", q.accountName) + Entry("Purpose", q.purpose)
      + Entry("Reference", Reference(q))
  }

  /** A value shown on a line of its own. */
  predicate OneLine(value: Option<string>) {
    value.Some? ==> '\n' !in value.value
  }

  /** Text without a newline is a single line. */
  lemma {:induction false} SplitSingle(w: string)
    requires '\n' !in w
    ensures SplitLines(w) == [w]
    decreases |w|
  {
    if w != [] {
      SplitSingle(w[1..]);
      assert w == [w[0]] + w[1..];
    }
  }

  /** Appending a newline and a line adds that line at the end. */
  lemma {:induction false} SplitSnoc(s: string, w: string)
    requires '\n' !in w
    ensures SplitLines(s + "\n" + w) == SplitLines(s) + [w]
    decreases |s|
  {
    if s == [] {
      assert s + "\n" + w == "\n" + w;
      assert ("\n" + w)[1..] == w;
      SplitSingle(w);
    } else {
      assert (s + "\n" + w)[1..] == s[1..] + "\n" + w;
      SplitSnoc(s[1..], w);
    }
  }

  /** Appending a `Line` adds its entry at the end of the lines. */
  lemma SplitLine(s: string, title: string, value: Option<string>)
    requires '\n' !in title && OneLine(value)
    ensures SplitLines(s + Line(title, value)) == SplitLines(s) + Entry(title, value)
  {
    if value.Some? {
      var w := title + ": " + value.value;
      assert '\n' !in w by {
        assert w == title + (": " + value.value);
      }
      assert s + Line(title, value) == s + "\n" + w;
      SplitSnoc(s, w);
    } else {
      assert Line(title, value) == "";
      assert s + "" == s;
    }
  }

  /** Split at its newlines, `displayInfo` is the bank BIN and account lines
      followed by one line per present field, in the order account name,
      purpose, reference (for values that hold no newline themselves). */
  lemma DisplayInfoLines(q: VietQR)
    requires '\n' !in q.bankBin && '\n' !in q.accountNumber
    requires OneLine(q.accountName) && OneLine(q.purpose) && OneLine(Reference(q))
    ensures SplitLines(DisplayInfo(q)) == DisplayLines(q)
  {
    var h1 := Header(q) + Line("Account Name", q.accountName);
    var h2 := h1 + Line("Purpose", q.purpose);
    HeaderLines(q);
    SplitLine(Header(q), "Account Name", q.accountName);
    SplitLine(h1, "Purpose", q.purpose);
    SplitLine(h2, "Reference", Reference(q));
  }

  /** The header is the bank BIN line and the account line. */
  lemma HeaderLines(q: VietQR)
    requires '\n' !in q.bankBin && '\n' !in q.accountNumber
    ensures SplitLines(Header(q)) == ["Bank BIN: " + q.bankBin, "Account: " + q.accountNumber]
  {
    var bin := "Bank BIN: " + q.bankBin;
    var acc := "Account: " + q.accountNumber;
    assert '\n' !in bin && '\n' !in acc;
    assert Header(q) == bin + "\n" + acc;
    SplitSingle(bin);
    SplitSnoc(bin, acc);
  }
}
