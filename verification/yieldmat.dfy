/** YIELDMAT(settlement, maturity, issue, rate, pr [, basis]): the annual
    yield of a security paying interest at maturity. This module models
    the argument validation and day-count dispatch; the yield formula
    itself is the parameter `formula`, called with the chosen convention. */
module Yieldmat {
  import opened Vertex
  import opened DayCount
  import opened Dispatch

  /** What the yield formula receives: the three dates as whole serial
      numbers, rate and price unchanged. */
  datatype Inputs = Inputs(settle: nat, maturity: nat, issue: nat, rate: real, pr: real)

  /** The domain checks of settlement, maturity, issue, rate and pr: dates
      must be positive (maturity and settlement raise `#VALUE!`, issue
      `#NUM!`), rate and price non-negative. */
  const Checks: seq<Check> := [
    Positive(ErrorKind.Value), Positive(ErrorKind.Value), Positive(ErrorKind.Num),
    NonNegative(ErrorKind.Num), NonNegative(ErrorKind.Num)
  ]

  predicate ArityOk(n: nat) { 5 <= n <= 6 }

  function Calc(h: Host, formula: (Basis, Inputs) -> real, args: seq<CalcVertex>): (e: Evaluation)
    ensures !ArityOk(|args|) ==> e == Evaluation(ErrorVertex(ErrorKind.Unspecified), [])
    ensures |e.calls| <= |args| && e.calls == args[..|e.calls|]
    ensures forall k | 0 <= k < |Checks| :: ArityOk(|args|) && FailsFirstAt(h, args, Checks, k)
              ==> e == Evaluation(Rejection(h, args[k], Checks[k]), args[..k + 1])
  {
    if !(|args| >= 5 && |args| <= 6) then Evaluation(ErrorVertex(ErrorKind.Unspecified), [])
    else
      match FetchFields(h, args, Checks)
      case Rejected(err, _, fetched) => Evaluation(err, fetched)
      case Valid(vs, fetched) =>
        var settlement, maturity, issue, rate, pr := vs[0], vs[1], vs[2], vs[3], vs[4];
        if !(settlement < maturity) then Evaluation(ErrorVertex(ErrorKind.Num), fetched)
        else
          var inputs := Inputs(FloorToU32(settlement), FloorToU32(maturity), FloorToU32(issue), rate, pr);
          var basisArg := OptionalBasis(h, args, 5);
          assert fetched + basisArg.fetched == args;
          match basisArg
          case BasisRejected(err, more) => Evaluation(err, fetched + more)
          case Chosen(basis, more) => Evaluation(NumberVertex(formula(basis, inputs)), fetched + more)
  }

  /** The five leading arguments coerce to the given numbers. */
  predicate FieldsAre(h: Host, args: seq<CalcVertex>, settlement: real, maturity: real, issue: real, rate: real, pr: real)
    requires |args| >= 5
  {
    && Fetch(h, args[0]) == Numeric(settlement)
    && Fetch(h, args[1]) == Numeric(maturity)
    && Fetch(h, args[2]) == Numeric(issue)
    && Fetch(h, args[3]) == Numeric(rate)
    && Fetch(h, args[4]) == Numeric(pr)
  }

  /** Non-positive settlement or maturity dates are `#VALUE!`; a
      non-positive issue date or a negative rate or price is `#NUM!`. Each
      case speaks only of the arguments up to the failing one: nothing
      after it is fetched, so nothing is assumed about it. */
  lemma FieldErrors(h: Host, formula: (Basis, Inputs) -> real, args: seq<CalcVertex>,
                    settlement: real, maturity: real, issue: real, rate: real, pr: real)
    requires ArityOk(|args|)
    ensures Fetch(h, args[0]) == Numeric(settlement) && settlement <= 0.0
            ==> Calc(h, formula, args) == Evaluation(ErrorVertex(ErrorKind.Value), args[..1])
    ensures && Fetch(h, args[0]) == Numeric(settlement) && Fetch(h, args[1]) == Numeric(maturity)
            && settlement > 0.0 && maturity <= 0.0
            ==> Calc(h, formula, args) == Evaluation(ErrorVertex(ErrorKind.Value), args[..2])
    ensures && Fetch(h, args[0]) == Numeric(settlement) && Fetch(h, args[1]) == Numeric(maturity)
            && Fetch(h, args[2]) == Numeric(issue)
            && settlement > 0.0 && maturity > 0.0 && issue <= 0.0
            ==> Calc(h, formula, args) == Evaluation(ErrorVertex(ErrorKind.Num), args[..3])
    ensures && Fetch(h, args[0]) == Numeric(settlement) && Fetch(h, args[1]) == Numeric(maturity)
            && Fetch(h, args[2]) == Numeric(issue) && Fetch(h, args[3]) == Numeric(rate)
            && settlement > 0.0 && maturity > 0.0 && issue > 0.0 && rate < 0.0
            ==> Calc(h, formula, args) == Evaluation(ErrorVertex(ErrorKind.Num), args[..4])
    ensures && FieldsAre(h, args, settlement, maturity, issue, rate, pr)
            && settlement > 0.0 && maturity > 0.0 && issue > 0.0 && rate >= 0.0 && pr < 0.0
            ==> Calc(h, formula, args) == Evaluation(ErrorVertex(ErrorKind.Num), args[..5])
  {
    if Fetch(h, args[0]) == Numeric(settlement) && settlement <= 0.0 {
      assert FailsFirstAt(h, args, Checks, 0);
    }
    if Fetch(h, args[0]) == Numeric(settlement) && Fetch(h, args[1]) == Numeric(maturity)
       && settlement > 0.0 && maturity <= 0.0 {
      assert FailsFirstAt(h, args, Checks, 1);
    }
    if Fetch(h, args[0]) == Numeric(settlement) && Fetch(h, args[1]) == Numeric(maturity)
       && Fetch(h, args[2]) == Numeric(issue) && settlement > 0.0 && maturity > 0.0 && issue <= 0.0 {
      assert FailsFirstAt(h, args, Checks, 2);
    }
    if Fetch(h, args[0]) == Numeric(settlement) && Fetch(h, args[1]) == Numeric(maturity)
       && Fetch(h, args[2]) == Numeric(issue) && Fetch(h, args[3]) == Numeric(rate)
       && settlement > 0.0 && maturity > 0.0 && issue > 0.0 && rate < 0.0 {
      assert FailsFirstAt(h, args, Checks, 3);
    }
    if FieldsAre(h, args, settlement, maturity, issue, rate, pr)
       && settlement > 0.0 && maturity > 0.0 && issue > 0.0 && rate >= 0.0 && pr < 0.0 {
      assert FailsFirstAt(h, args, Checks, 4);
    }
  }

  /** An argument that does not coerce to a number ends the call with the
      coercion's error, unchanged, after every earlier argument passed. */
  lemma CoercionErrorPassesThrough(h: Host, formula: (Basis, Inputs) -> real, args: seq<CalcVertex>, k: nat)
    requires ArityOk(|args|) && k < 5
    requires forall i | 0 <= i < k :: Accepts(h, args[i], Checks[i])
    requires Fetch(h, args[k]).NonNumeric?
    ensures Calc(h, formula, args) == Evaluation(ErrorVertex(Fetch(h, args[k]).kind), args[..k + 1])
  {
    assert FailsFirstAt(h, args, Checks, k);
  }

  /** Settlement on or after maturity is `#NUM!`, raised only once all five
      fields are valid and before the basis argument is fetched. */
  lemma SettlementNotBeforeMaturity(h: Host, formula: (Basis, Inputs) -> real, args: seq<CalcVertex>,
                                    settlement: real, maturity: real, issue: real, rate: real, pr: real)
    requires ArityOk(|args|) && FieldsAre(h, args, settlement, maturity, issue, rate, pr)
    requires settlement > 0.0 && maturity > 0.0 && issue > 0.0 && rate >= 0.0 && pr >= 0.0
    requires settlement >= maturity
    ensures Calc(h, formula, args) == Evaluation(ErrorVertex(ErrorKind.Num), args[..5])
  {
    var r := FetchFields(h, args, Checks);
    assert r.Valid?;
    assert r.values[0] == settlement && r.values[1] == maturity;
  }

  /** A basis argument outside 0..4 is `#NUM!`. */
  lemma BasisOutOfRange(h: Host, formula: (Basis, Inputs) -> real, args: seq<CalcVertex>,
                        settlement: real, maturity: real, issue: real, rate: real, pr: real, b: real)
    requires |args| == 6 && FieldsAre(h, args, settlement, maturity, issue, rate, pr)
    requires settlement > 0.0 && maturity > 0.0 && issue > 0.0 && rate >= 0.0 && pr >= 0.0
    requires settlement < maturity
    requires Fetch(h, args[5]) == Numeric(b) && (b < 0.0 || b > 4.0)
    ensures Calc(h, formula, args) == Evaluation(ErrorVertex(ErrorKind.Num), args)
  {
    var r := FetchFields(h, args, Checks);
    assert r.Valid?;
    assert r.values[0] == settlement && r.values[1] == maturity;
  }

  /** A basis argument that does not coerce to a number ends the call
      with the coercion's error, unchanged, after every argument was
      fetched. */
  lemma BasisNotANumber(h: Host, formula: (Basis, Inputs) -> real, args: seq<CalcVertex>,
                        settlement: real, maturity: real, issue: real, rate: real, pr: real)
    requires |args| == 6 && FieldsAre(h, args, settlement, maturity, issue, rate, pr)
    requires settlement > 0.0 && maturity > 0.0 && issue > 0.0 && rate >= 0.0 && pr >= 0.0
    requires settlement < maturity
    requires Fetch(h, args[5]).NonNumeric?
    ensures Calc(h, formula, args) == Evaluation(ErrorVertex(Fetch(h, args[5]).kind), args)
  {
    var r := FetchFields(h, args, Checks);
    assert r.Valid?;
    assert r.values[0] == settlement && r.values[1] == maturity;
  }

  /** A valid call fetches every argument once, in order, and returns the
      formula's value for the selected convention (the truncated basis
      code, or code 0 when the basis is omitted) with the three dates
      floored to whole serials and rate and price passed unchanged. */
  lemma Succeeds(h: Host, formula: (Basis, Inputs) -> real, args: seq<CalcVertex>,
                 settlement: real, maturity: real, issue: real, rate: real, pr: real, basis: Basis)
    requires ArityOk(|args|) && FieldsAre(h, args, settlement, maturity, issue, rate, pr)
    requires settlement > 0.0 && maturity > 0.0 && issue > 0.0 && rate >= 0.0 && pr >= 0.0
    requires settlement < maturity
    requires |args| == 5 ==> basis == DefaultBasis
    requires |args| == 6 ==>
               && Fetch(h, args[5]).Numeric?
               && 0.0 <= Fetch(h, args[5]).x <= 4.0
               && Code(basis) == Fetch(h, args[5]).x.Floor
    ensures Calc(h, formula, args) == Evaluation(
              NumberVertex(formula(basis, Inputs(FloorToU32(settlement), FloorToU32(maturity), FloorToU32(issue), rate, pr))),
              args)
  {
    var r := FetchFields(h, args, Checks);
    assert r.Valid?;
    assert r.values == [settlement, maturity, issue, rate, pr];
    if |args| == 6 {
      var chosen := OptionalBasis(h, args, 5);
      assert chosen.Chosen?;
      assert Code(chosen.basis) == Code(basis);
      CodeRoundTrip(basis);
      CodeRoundTrip(chosen.basis);
    }
  }
}
