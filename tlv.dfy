/**
 The TLV (tag, length, value) codec of VietQRParser: `parseTLV` scans a
 string of data objects, each a 2-character tag, a 2-character decimal
 length and that many characters of value, as in the EMV QR Code
 Specification for Payment Systems (Merchant-Presented Mode); `buildTLV`
 writes one data object.
 */
module Tlv {
  import opened SwiftRuntime

  /** The dictionary `parseTLV` returns: tag to value. */
  type Fields = map<string, string>

  /** One data object, as the generator emits it. */
  datatype Field = Field(tag: string, value: string)

  /** The outcome of scanning the suffix of a string after `acc` has been
      collected from what came before: later entries overwrite earlier ones. */
  function Merge(acc: Fields, rest: Run<Fields>): Run<Fields> {
    match rest
    case Done(m) => Done(acc + m)
    case Trap => Trap
  }

  /** What `parseTLV` computes, data object by data object. The scan stops,
      keeping what it has, when fewer than four characters remain, when the
      length field is not an integer, or when fewer characters than the
      length remain. A negative length (`Int("-5")` is -5) passes the
      length guard and then forms a reversed range, which traps. */
  function Scan(s: string): (r: Run<Fields>)
    ensures |s| < 4 ==> r == Done(map[])
    decreases |s|
  {
    if |s| < 4 then Done(map[])
    else match ParseInt(s[2..4])
      case None => Done(map[])
      case Some(n) =>
        if |s| - 4 < n then Done(map[])
        else if n < 0 then Trap
        else
          var rest :- Scan(s[4 + n..]);
          Done(map[s[..2] := s[4..4 + n]] + rest)
  }

  /** `parseTLV`: a cursor walks the string and each data object is stored
      into the dictionary, overwriting an earlier value of the same tag. */
  method ParseTLV(data: string) returns (r: Run<Fields>)
    ensures r == Scan(data)
  {
    var result: Fields := map[];
    var index := 0;
    assert data[index..] == data;
    match Scan(data) {
      case Done(m) => assert result + m == m;
      case Trap =>
    }
    while index < |data|
      invariant 0 <= index <= |data|
      invariant Scan(data) == Merge(result, Scan(data[index..]))
    {
      ghost var rest := data[index..];
      if |data| - index < 4 {
        assert Scan(rest) == Done(map[]) && result + map[] == result;
        break;
      }
      var tag := data[index..index + 2];
      var lengthStr := data[index + 2..index + 4];
      assert rest[2..4] == lengthStr && rest[..2] == tag;
      var parsed := ParseInt(lengthStr);
      if parsed.None? {
        assert Scan(rest) == Done(map[]) && result + map[] == result;
        break;
      }
      var length := parsed.value;
      if |data| - (index + 4) < length {
        assert Scan(rest) == Done(map[]) && result + map[] == result;
        break;
      }
      if length < 0 {
        // `data.index(lengthEnd, offsetBy: length)` lies before `lengthEnd`,
        // so the range `lengthEnd..<valueEnd` is reversed: Swift traps here.
        assert Scan(rest) == Trap;
        return Trap;
      }
      var value := data[index + 4..index + 4 + length];
      ScanAt(data, index, length);
      MergeStep(result, tag, value, Scan(data[index + 4 + length..]));
      result := result[tag := value];
      index := index + 4 + length;
    }
    if index == |data| {
      assert data[index..] == [] && result + map[] == result;
    }
    r := Done(result);
  }

  /** One data object read at `index`, once the guards have let it through. */
  lemma ScanAt(data: string, index: nat, length: int)
    requires index + 4 <= |data| && ParseInt(data[index + 2..index + 4]) == Some(length)
    requires 0 <= length <= |data| - (index + 4)
    ensures Scan(data[index..]) ==
              Merge(map[data[index..index + 2] := data[index + 4..index + 4 + length]],
                    Scan(data[index + 4 + length..]))
  {
    var rest := data[index..];
    assert rest[2..4] == data[index + 2..index + 4];
    assert rest[..2] == data[index..index + 2];
    assert rest[4..4 + length] == data[index + 4..index + 4 + length];
    assert rest[4 + length..] == data[index + 4 + length..];
  }

  lemma MergeStep(acc: Fields, tag: string, value: string, rest: Run<Fields>)
    ensures Merge(acc, Merge(map[tag := value], rest)) == Merge(acc[tag := value], rest)
  {
    match rest
    case Done(m) =>
      assert acc[tag := value] == acc + map[tag := value];
      MapUnionAssoc(acc, map[tag := value], m);
    case Trap =>
  }

  lemma MapUnionAssoc(a: Fields, b: Fields, c: Fields)
    ensures a + (b + c) == (a + b) + c
  {
  }

  /** `buildTLV`: the tag, the value's length written with `%02d`, the value. */
  function BuildTLV(tag: string, value: string): (r: string)
    ensures |r| >= |tag| + 2 + |value|
    ensures |value| < 100 ==> |r| == |tag| + 2 + |value|
    ensures r[..|tag|] == tag && r[|r| - |value|..] == value
  {
    tag + Format02d(|value|) + value
  }

  /** The data objects written one after the other. */
  function Serialize(fields: seq<Field>): string {
    if |fields| == 0 then "" else BuildTLV(fields[0].tag, fields[0].value) + Serialize(fields[1..])
  }

  /** The dictionary a list of data objects denotes: the last one of a tag wins. */
  function ToMap(fields: seq<Field>): Fields {
    if |fields| == 0 then map[] else map[fields[0].tag := fields[0].value] + ToMap(fields[1..])
  }

  /** Every tag has two characters and every value fits the two-digit length. */
  predicate WellFormed(fields: seq<Field>) {
    forall i :: 0 <= i < |fields| ==> |fields[i].tag| == 2 && |fields[i].value| < 100
  }

  /** Where the scan gives up: too short, a length that is not a number, or
      a length longer than what remains. */
  predicate Stops(s: string) {
    |s| < 4 || ParseInt(s[2..4]).None? || (ParseInt(s[2..4]).value >= 0 && |s| - 4 < ParseInt(s[2..4]).value)
  }

  lemma StopsScansNothing(s: string)
    requires Stops(s)
    ensures Scan(s) == Done(map[])
  {
  }

  /** One data object at the head of the input is read exactly as written. */
  lemma ScanHead(tag: string, value: string, after: string)
    requires |tag| == 2 && |value| < 100
    ensures Scan(BuildTLV(tag, value) + after) == Merge(map[tag := value], Scan(after))
  {
    var n := |value|;
    FormatThenParse(n);
    var s := BuildTLV(tag, value) + after;
    assert s[..2] == tag;
    assert s[2..4] == Format02d(n);
    assert s[4..4 + n] == value;
    assert s[4 + n..] == after;
  }

  /** Scanning written data objects followed by anything collects exactly
      those objects, later ones overriding earlier ones, and then whatever
      the tail yields. */
  lemma {:induction false} ScanSerialize(fields: seq<Field>, tail: string)
    requires WellFormed(fields)
    ensures Scan(Serialize(fields) + tail) == Merge(ToMap(fields), Scan(tail))
    decreases |fields|
  {
    if |fields| == 0 {
      assert Serialize(fields) + tail == tail;
      match Scan(tail)
      case Done(m) => assert map[] + m == m;
      case Trap =>
    } else {
      var f := fields[0];
      var after := Serialize(fields[1..]) + tail;
      assert Serialize(fields) + tail == BuildTLV(f.tag, f.value) + after;
      ScanHead(f.tag, f.value, after);
      ScanSerialize(fields[1..], tail);
      match Scan(tail)
      case Done(m) => MapUnionAssoc(map[f.tag := f.value], ToMap(fields[1..]), m);
      case Trap =>
    }
  }

  /** The round trip of the codec: scanning written data objects gives back
      the dictionary they denote. */
  lemma ScanOfSerialize(fields: seq<Field>)
    requires WellFormed(fields)
    ensures Scan(Serialize(fields)) == Done(ToMap(fields))
  {
    ScanSerialize(fields, "");
    assert Serialize(fields) + "" == Serialize(fields);
    assert Scan("") == Done(map[]);
    assert ToMap(fields) + map[] == ToMap(fields);
  }

  /** Malformed or truncated trailing data is dropped without an error: the
      scan returns what it built before it. */
  lemma ScanIsLenient(fields: seq<Field>, tail: string)
    requires WellFormed(fields) && Stops(tail)
    ensures Scan(Serialize(fields) + tail) == Done(ToMap(fields))
  {
    ScanSerialize(fields, tail);
    assert ToMap(fields) + map[] == ToMap(fields);
  }

  /** `buildTLV` and `parseTLV` are inverse on one data object with a
      two-character tag and a value shorter than 100 characters. */
  lemma BuildThenScan(tag: string, value: string)
    requires |tag| == 2 && |value| < 100
    ensures Scan(BuildTLV(tag, value)) == Done(map[tag := value])
  {
    ScanHead(tag, value, "");
    assert BuildTLV(tag, value) + "" == BuildTLV(tag, value);
    assert map[tag := value] + map[] == map[tag := value];
  }

  /** A repeated tag keeps its last value. */
  lemma LastOccurrenceWins(tag: string, first: string, second: string)
    requires |tag| == 2 && |first| < 100 && |second| < 100
    ensures Scan(BuildTLV(tag, first) + BuildTLV(tag, second)) == Done(map[tag := second])
  {
    ScanHead(tag, first, BuildTLV(tag, second));
    BuildThenScan(tag, second);
    assert map[tag := first] + map[tag := second] == map[tag := second];
  }

  lemma ToMapAppend(a: seq<Field>, b: seq<Field>)
    ensures ToMap(a + b) == ToMap(a) + ToMap(b)
    decreases |a|
  {
    if |a| == 0 {
      assert a + b == b;
    } else {
      assert (a + b)[1..] == a[1..] + b;
      ToMapAppend(a[1..], b);
      MapUnionAssoc(map[a[0].tag := a[0].value], ToMap(a[1..]), ToMap(b));
    }
  }

  /** The dictionary has a key for each tag the data objects carry, and no
      other. */
  lemma {:induction false} ToMapKeys(fields: seq<Field>, t: string)
    ensures t in ToMap(fields) <==> exists i :: 0 <= i < |fields| && fields[i].tag == t
    decreases |fields|
  {
    if |fields| > 0 {
      ToMapKeys(fields[1..], t);
      if t in ToMap(fields[1..]) {
        var i :| 0 <= i < |fields[1..]| && fields[1..][i].tag == t;
        assert fields[i + 1].tag == t;
      }
      if exists i :: 0 <= i < |fields| && fields[i].tag == t {
        var i :| 0 <= i < |fields| && fields[i].tag == t;
        if i > 0 {
          assert fields[1..][i - 1].tag == t;
        }
      }
    }
  }

  lemma SerializeAppend(a: seq<Field>, b: seq<Field>)
    ensures Serialize(a + b) == Serialize(a) + Serialize(b)
    decreases |a|
  {
    if |a| == 0 {
      assert a + b == b;
    } else {
      assert (a + b)[1..] == a[1..] + b;
      SerializeAppend(a[1..], b);
    }
  }

  /** A scan that does not trap has read only sound data objects, so every
      key it stores is a two-character tag and every value is shorter than
      the input by at least a header. */
  lemma {:induction false} ScannedValuesAreShorter(s: string)
    requires Scan(s).Done?
    ensures forall t :: t in Scan(s).value ==> |t| == 2 && |Scan(s).value[t]| <= |s| - 4
    decreases |s|
  {
    if |s| >= 4 && ParseInt(s[2..4]).Some? {
      var n := ParseInt(s[2..4]).value;
      if 0 <= n <= |s| - 4 {
        ScannedValuesAreShorter(s[4 + n..]);
      }
    }
  }

  /** A negative length passes the "enough characters left" guard and then
      forms a reversed range: the scan traps, whatever follows. */
  lemma NegativeLengthTraps(s: string)
    requires |s| >= 4 && ParseInt(s[2..4]).Some? && ParseInt(s[2..4]).value < 0
    ensures Scan(s) == Trap
  {
  }

  /** Without a `-` in it, no length field is negative and the scan cannot trap. */
  lemma {:induction false} NoMinusNoTrap(s: string)
    requires forall i :: 0 <= i < |s| ==> s[i] != '-'
    ensures Scan(s).Done?
    decreases |s|
  {
    if |s| >= 4 && ParseInt(s[2..4]).Some? {
      var n := ParseInt(s[2..4]).value;
      assert s[2..4][0] == s[2];
      if 0 <= n <= |s| - 4 {
        NoMinusNoTrap(s[4 + n..]);
      }
    }
  }

  /** From 100 characters on, `%02d` writes three digits, so `parseTLV` no
      longer reads back what `buildTLV` wrote: it takes the first two digits
      for the length, and neither that short value nor anything scanned after
      it can be the whole value. Only the three-digit case, values of 100 to
      999 characters, is stated here; from 1000 characters the length field
      has four digits or more and the round trip breaks the same way. */
  lemma LongValueBreaksRoundTrip(tag: string, value: string)
    requires |tag| == 2 && 100 <= |value| < 1000
    ensures Scan(BuildTLV(tag, value)) != Done(map[tag := value])
  {
    var len := |value|;
    var s := BuildTLV(tag, value);
    var n := len / 10;
    LongLengthField(tag, value);
    var rest := s[4 + n..];
    assert Scan(s) == Merge(map[s[..2] := s[4..4 + n]], Scan(rest));
    if Scan(rest).Done? {
      var m := Scan(rest).value;
      ScannedValuesAreShorter(rest);
      if tag in m {
        assert |m[tag]| <= |rest| - 4 < len;
      } else if s[..2] == tag {
        assert |s[4..4 + n]| == n < len;
      }
    }
  }

  /** A three-digit length is written whole, but only its first two digits
      are read back as the length (stated for three-digit lengths only). */
  lemma LongLengthField(tag: string, value: string)
    requires |tag| == 2 && 100 <= |value| < 1000
    ensures var s := BuildTLV(tag, value);
            |s| == |value| + 5 && ParseInt(s[2..4]) == Some(|value| / 10)
  {
    var len := |value|;
    var s := BuildTLV(tag, value);
    DecimalLength(len);
    DecimalLength(len / 10);
    assert Decimal(len) == Decimal(len / 10) + [DigitChar(len % 10)];
    assert s[2..4] == Decimal(len / 10);
    FormatThenParse(len / 10);
  }

}
