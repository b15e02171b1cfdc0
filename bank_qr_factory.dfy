/**
 BankQRFactory: a list of registered parsers, tried in order; the first
 whose `canParse` accepts a string decides how that string is parsed.
 */
module BankQRFactory {
  import opened SwiftRuntime
  import opened VietQRModel
  import opened VietQRParser

  /** A registered parser: the shared VietQR parser, or one registered from
      outside, known here only by its `canParse`. */
  datatype Parser = VietQRKind | Custom(accepts: string -> bool)

  /** `parser.canParse(qrString)`. The VietQR parser traps on a negative
      data object length. */
  function Accepts(p: Parser, s: string): (r: Run<bool>)
    ensures p.VietQRKind? ==> r == CanParse(s)
    ensures p.Custom? ==> r == Done(p.accepts(s))
    ensures r.Trap? ==> p.VietQRKind?
  {
    match p
    case VietQRKind => CanParse(s)
    case Custom(accepts) => Done(accepts(s))
  }

  /** The position of the first parser that accepts `s`, nil when none
      does, a trap when a parser traps before one accepts. */
  function Detect(parsers: seq<Parser>, s: string): (r: Run<Option<nat>>)
    ensures r.Done? && r.value.Some? ==> r.value.value < |parsers|
  {
    if |parsers| == 0 then Done(None)
    else
      var first :- Accepts(parsers[0], s);
      if first then Done(Some(0))
      else
        var rest :- Detect(parsers[1..], s);
        if rest.Some? then Done(Some(rest.value + 1)) else Done(None)
  }

  /** What `parseBankQR(from:)` returns: nil when no parser is detected and
      when the detected parser is not the VietQR parser, otherwise what
      `parse(from:)` returns. */
  function ParseWith(parsers: seq<Parser>, s: string): (r: Run<Option<VietQR>>)
    ensures r.Done? && r.value.Some? ==>
              r == Parse(s) && Detect(parsers, s).Done? && Detect(parsers, s).value.Some? &&
              parsers[Detect(parsers, s).value.value].VietQRKind?
    ensures Detect(parsers, s).Done? && Detect(parsers, s).value.None? ==> r == Done(None)
  {
    var found :- Detect(parsers, s);
    if found.None? then Done(None)
    else if parsers[found.value].VietQRKind? then Parse(s)
    else Done(None)
  }

  /** `BankQRFactory`: the registered parsers, the VietQR parser first. */
  class Factory {
    var parsers: seq<Parser>

    /** The private `init` with the initial parser list. */
    constructor()
      ensures parsers == [VietQRKind]
    {
      parsers := [VietQRKind];
    }

    /** `detectParser(for:)`: the parsers tried in order, the first that
        accepts returned. */
    method DetectParser(s: string) returns (r: Run<Option<nat>>)
      ensures r == Detect(parsers, s)
    {
      for i := 0 to |parsers|
        invariant Detect(parsers, s) == ShiftBy(Detect(parsers[i..], s), i)
      {
        DetectUnfold(parsers, s, i);
        var accepted := Accepts(parsers[i], s);
        if accepted.Trap? {
          return Trap;
        }
        if accepted.value {
          return Done(Some(i));
        }
      }
      assert parsers[|parsers|..] == [];
      r := Done(None);
    }

    /** `parseBankQR(from:)`. */
    method ParseBankQR(s: string) returns (r: Run<Option<VietQR>>)
      ensures r == ParseWith(parsers, s)
    {
      var found := DetectParser(s);
      if found.Trap? {
        return Trap;
      }
      if found.value.None? {
        return Done(None);
      }
      if parsers[found.value.value].VietQRKind? {
        r := Parse(s);
      } else {
        r := Done(None);
      }
    }

    /** `registerParser(_:)`: the new parser is tried after all the others. */
    method RegisterParser(p: Parser)
      modifies this
      ensures parsers == old(parsers) + [p]
    {
      parsers := parsers + [p];
    }

    /** `parseVietQR(from:)`: the VietQR parser directly, whatever is
        registered. */
    method ParseVietQR(s: string) returns (r: Run<Option<VietQR>>)
      ensures r == Parse(s)
    {
      r := Parse(s);
    }
  }

  /** A position found in a suffix, as a position in the whole list. */
  function ShiftBy(r: Run<Option<nat>>, k: nat): Run<Option<nat>> {
    if r.Done? && r.value.Some? then Done(Some(r.value.value + k)) else r
  }

  lemma DetectUnfold(parsers: seq<Parser>, s: string, i: nat)
    requires i < |parsers|
    ensures Detect(parsers[i..], s) ==
              if Accepts(parsers[i], s).Trap? then Trap
              else if Accepts(parsers[i], s).value then Done(Some(0))
              else ShiftBy(Detect(parsers[i + 1..], s), 1)
  {
    assert parsers[i..][1..] == parsers[i + 1..];
  }

  /** Detection picks the first accepting parser: every one before it
      rejects the string, and a nil answer means all of them reject it. */
  lemma {:induction false} DetectIsFirst(parsers: seq<Parser>, s: string)
    ensures Detect(parsers, s).Done? && Detect(parsers, s).value.Some? ==>
              var i := Detect(parsers, s).value.value;
              Accepts(parsers[i], s) == Done(true) &&
              forall j :: 0 <= j < i ==> Accepts(parsers[j], s) == Done(false)
    ensures Detect(parsers, s) == Done(None) <==>
              forall j :: 0 <= j < |parsers| ==> Accepts(parsers[j], s) == Done(false)
  {
    if |parsers| > 0 {
      DetectIsFirst(parsers[1..], s);
      if Accepts(parsers[0], s) == Done(false) {
        forall j | 1 <= j < |parsers|
          ensures Accepts(parsers[j], s) == Accepts(parsers[1..][j - 1], s)
        {
        }
      }
    }
  }

  /** Registering a parser never changes which parser an already detected
      string goes to; a string no parser accepted goes to the new one
      exactly when it accepts it. */
  lemma {:induction false} RegisterKeepsDetection(parsers: seq<Parser>, p: Parser, s: string)
    ensures Detect(parsers, s).Done? && Detect(parsers, s).value.Some? ==>
              Detect(parsers + [p], s) == Detect(parsers, s)
    ensures Detect(parsers, s) == Done(None) ==>
              Detect(parsers + [p], s) ==
                (if Accepts(p, s).Trap? then Trap
                 else if Accepts(p, s).value then Done(Some(|parsers|)) else Done(None))
    ensures Detect(parsers, s).Trap? ==> Detect(parsers + [p], s).Trap?
  {
    if |parsers| > 0 {
      assert (parsers + [p])[1..] == parsers[1..] + [p];
      RegisterKeepsDetection(parsers[1..], p, s);
    } else {
      assert (parsers + [p])[1..] == [];
    }
  }

  /** With only the VietQR parser registered, `parseBankQR(from:)` is
      exactly `VietQRParser.parse(from:)`: a string `canParse` rejects is
      one `parse` rejects, and a trap in one is a trap in the other. */
  lemma DefaultFactoryParsesVietQR(s: string)
    ensures ParseWith([VietQRKind], s) == Parse(s)
  {
    assert [VietQRKind][1..] == [];
    assert Detect([], s) == Done(None);
    CanParseDecides(s);
    if CanParse(s) == Done(true) {
      assert Detect([VietQRKind], s) == Done(Some(0));
    }
  }

  /** Once a custom parser is detected for a string, `parseBankQR(from:)`
      returns nil for it, whatever the VietQR parser would make of it. */
  lemma CustomParsersYieldNothing(parsers: seq<Parser>, s: string)
    requires Detect(parsers, s).Done? && Detect(parsers, s).value.Some?
    requires parsers[Detect(parsers, s).value.value].Custom?
    ensures ParseWith(parsers, s) == Done(None)
  {
  }

  /** A trap in the `canParse` of a parser that is asked traps the whole
      detection, and with it `parseBankQR(from:)`. */
  lemma TrapStopsDetection(parsers: seq<Parser>, s: string)
    requires |parsers| > 0 && parsers[0].VietQRKind? && CanParse(s).Trap?
    ensures Detect(parsers, s) == Trap && ParseWith(parsers, s) == Trap
  {
  }
}
