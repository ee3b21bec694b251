/** RECEIVED(settlement, maturity, investment, discount [, basis]): the
    amount received at maturity for a fully invested security. This module
    models the argument validation and day-count dispatch; the amount
    itself is the parameter `formula`, called with the chosen convention. */
module Received {
  import opened Vertex
  import opened DayCount
  import opened Dispatch

  /** What the formula receives: the two dates as whole serial numbers,
      investment and discount unchanged. */
  datatype Inputs = Inputs(settle: nat, maturity: nat, investment: real, discount: real)

  /** The domain checks of settlement, maturity, investment and discount:
      every one must be strictly positive; the dates raise `#VALUE!`, the
      amounts `#NUM!`. */
  const Checks: seq<Check> := [
    Positive(ErrorKind.Value), Positive(ErrorKind.Value), Positive(ErrorKind.Num), Positive(ErrorKind.Num)
  ]

  predicate ArityOk(n: nat) { 4 <= n <= 5 }

  function Calc(h: Host, formula: (Basis, Inputs) -> real, args: seq<CalcVertex>): (e: Evaluation)
    ensures !ArityOk(|args|) ==> e == Evaluation(ErrorVertex(ErrorKind.Unspecified), [])
    ensures |e.calls| <= |args| && e.calls == args[..|e.calls|]
    ensures forall k | 0 <= k < |Checks| :: ArityOk(|args|) && FailsFirstAt(h, args, Checks, k)
              ==> e == Evaluation(Rejection(h, args[k], Checks[k]), args[..k + 1])
  {
    if !(|args| >= 4 && |args| <= 5) then Evaluation(ErrorVertex(ErrorKind.Unspecified), [])
    else
      match FetchFields(h, args, Checks)
      case Rejected(err, _, fetched) => Evaluation(err, fetched)
      case Valid(vs, fetched) =>
        var settlement, maturity, investment, discount := vs[0], vs[1], vs[2], vs[3];
        if !(settlement < maturity) then Evaluation(ErrorVertex(ErrorKind.Num), fetched)
        else
          var inputs := Inputs(FloorToU32(settlement), FloorToU32(maturity), investment, discount);
          var basisArg := OptionalBasis(h, args, 4);
          assert fetched + basisArg.fetched == args;
          match basisArg
          case BasisRejected(err, more) => Evaluation(err, fetched + more)
          case Chosen(basis, more) => Evaluation(NumberVertex(formula(basis, inputs)), fetched + more)
  }

  /** The four leading arguments coerce to the given numbers. */
  predicate FieldsAre(h: Host, args: seq<CalcVertex>, settlement: real, maturity: real, investment: real, discount: real)
    requires |args| >= 4
  {
    && Fetch(h, args[0]) == Numeric(settlement)
    && Fetch(h, args[1]) == Numeric(maturity)
    && Fetch(h, args[2]) == Numeric(investment)
    && Fetch(h, args[3]) == Numeric(discount)
  }

  /** Non-positive settlement or maturity dates are `#VALUE!`; a
      non-positive investment or discount (zero included) is `#NUM!`. Each
      case speaks only of the arguments up to the failing one: nothing
      after it is fetched, so nothing is assumed about it. */
  lemma FieldErrors(h: Host, formula: (Basis, Inputs) -> real, args: seq<CalcVertex>,
                    settlement: real, maturity: real, investment: real, discount: real)
    requires ArityOk(|args|)
    ensures Fetch(h, args[0]) == Numeric(settlement) && settlement <= 0.0
            ==> Calc(h, formula, args) == Evaluation(ErrorVertex(ErrorKind.Value), args[..1])
    ensures && Fetch(h, args[0]) == Numeric(settlement) && Fetch(h, args[1]) == Numeric(maturity)
            && settlement > 0.0 && maturity <= 0.0
            ==> Calc(h, formula, args) == Evaluation(ErrorVertex(ErrorKind.Value), args[..2])
    ensures && Fetch(h, args[0]) == Numeric(settlement) && Fetch(h, args[1]) == Numeric(maturity)
            && Fetch(h, args[2]) == Numeric(investment)
            && settlement > 0.0 && maturity > 0.0 && investment <= 0.0
            ==> Calc(h, formula, args) == Evaluation(ErrorVertex(ErrorKind.Num), args[..3])
    ensures && FieldsAre(h, args, settlement, maturity, investment, discount)
            && settlement > 0.0 && maturity > 0.0 && investment > 0.0 && discount <= 0.0
            ==> Calc(h, formula, args) == Evaluation(ErrorVertex(ErrorKind.Num), args[..4])
  {
    if Fetch(h, args[0]) == Numeric(settlement) && settlement <= 0.0 {
      assert FailsFirstAt(h, args, Checks, 0);
    }
    if Fetch(h, args[0]) == Numeric(settlement) && Fetch(h, args[1]) == Numeric(maturity)
       && settlement > 0.0 && maturity <= 0.0 {
      assert FailsFirstAt(h, args, Checks, 1);
    }
    if Fetch(h, args[0]) == Numeric(settlement) && Fetch(h, args[1]) == Numeric(maturity)
       && Fetch(h, args[2]) == Numeric(investment) && settlement > 0.0 && maturity > 0.0 && investment <= 0.0 {
      assert FailsFirstAt(h, args, Checks, 2);
    }
    if FieldsAre(h, args, settlement, maturity, investment, discount)
       && settlement > 0.0 && maturity > 0.0 && investment > 0.0 && discount <= 0.0 {
      assert FailsFirstAt(h, args, Checks, 3);
    }
  }

  /** An argument that does not coerce to a number ends the call with the
      coercion's error, unchanged, after every earlier argument passed. */
  lemma CoercionErrorPassesThrough(h: Host, formula: (Basis, Inputs) -> real, args: seq<CalcVertex>, k: nat)
    requires ArityOk(|args|) && k < 4
    requires forall i | 0 <= i < k :: Accepts(h, args[i], Checks[i])
    requires Fetch(h, args[k]).NonNumeric?
    ensures Calc(h, formula, args) == Evaluation(ErrorVertex(Fetch(h, args[k]).kind), args[..k + 1])
  {
    assert FailsFirstAt(h, args, Checks, k);
  }

  /** Settlement on or after maturity is `#NUM!`, raised only once all four
      fields are valid and before the basis argument is fetched. */
  lemma SettlementNotBeforeMaturity(h: Host, formula: (Basis, Inputs) -> real, args: seq<CalcVertex>,
                                    settlement: real, maturity: real, investment: real, discount: real)
    requires ArityOk(|args|) && FieldsAre(h, args, settlement, maturity, investment, discount)
    requires settlement > 0.0 && maturity > 0.0 && investment > 0.0 && discount > 0.0
    requires settlement >= maturity
    ensures Calc(h, formula, args) == Evaluation(ErrorVertex(ErrorKind.Num), args[..4])
  {
    var r := FetchFields(h, args, Checks);
    assert r.Valid?;
    assert r.values[0] == settlement && r.values[1] == maturity;
  }

  /** A basis argument outside 0..4 is `#NUM!`. */
  lemma BasisOutOfRange(h: Host, formula: (Basis, Inputs) -> real, args: seq<CalcVertex>,
                        settlement: real, maturity: real, investment: real, discount: real, b: real)
    requires |args| == 5 && FieldsAre(h, args, settlement, maturity, investment, discount)
    requires settlement > 0.0 && maturity > 0.0 && investment > 0.0 && discount > 0.0
    requires settlement < maturity
    requires Fetch(h, args[4]) == Numeric(b) && (b < 0.0 || b > 4.0)
    ensures Calc(h, formula, args) == Evaluation(ErrorVertex(ErrorKind.Num), args)
  {
    var r := FetchFields(h, args, Checks);
    assert r.Valid?;
    assert r.values[0] == settlement && r.values[1] == maturity;
  }

  /** A basis argument that does not coerce to a number ends the call
      with the coercion's error, unchanged, after every argument was
      fetched. */
  lemma BasisNotANumber(h: Host, formula: (Basis, Inputs) -> real, args: seq<CalcVertex>,
                        settlement: real, maturity: real, investment: real, discount: real)
    requires |args| == 5 && FieldsAre(h, args, settlement, maturity, investment, discount)
    requires settlement > 0.0 && maturity > 0.0 && investment > 0.0 && discount > 0.0
    requires settlement < maturity
    requires Fetch(h, args[4]).NonNumeric?
    ensures Calc(h, formula, args) == Evaluation(ErrorVertex(Fetch(h, args[4]).kind), args)
  {
    var r := FetchFields(h, args, Checks);
    assert r.Valid?;
    assert r.values[0] == settlement && r.values[1] == maturity;
  }

  /** A valid call fetches every argument once, in order, and returns the
      formula's value for the selected convention (the truncated basis
      code, or code 0 when the basis is omitted) with the two dates
      floored to whole serials and investment and discount unchanged. */
  lemma Succeeds(h: Host, formula: (Basis, Inputs) -> real, args: seq<CalcVertex>,
                 settlement: real, maturity: real, investment: real, discount: real, basis: Basis)
    requires ArityOk(|args|) && FieldsAre(h, args, settlement, maturity, investment, discount)
    requires settlement > 0.0 && maturity > 0.0 && investment > 0.0 && discount > 0.0
    requires settlement < maturity
    requires |args| == 4 ==> basis == DefaultBasis
    requires |args| == 5 ==>
               && Fetch(h, args[4]).Numeric?
               && 0.0 <= Fetch(h, args[4]).x <= 4.0
               && Code(basis) == Fetch(h, args[4]).x.Floor
    ensures Calc(h, formula, args) == Evaluation(
              NumberVertex(formula(basis, Inputs(FloorToU32(settlement), FloorToU32(maturity), investment, discount))),
              args)
  {
    var r := FetchFields(h, args, Checks);
    assert r.Valid?;
    assert r.values == [settlement, maturity, investment, discount];
    if |args| == 5 {
      var chosen := OptionalBasis(h, args, 4);
      assert chosen.Chosen?;
      assert Code(chosen.basis) == Code(basis);
      CodeRoundTrip(basis);
      CodeRoundTrip(chosen.basis);
    }
  }
}
