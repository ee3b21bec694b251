/** The evaluation framework shared by the bond functions: the connector
    through which arguments are fetched, the "assert-or-return" chain of
    per-argument domain checks, the float-to-serial truncation and the
    optional trailing basis argument.

    A function call is observed through an `Evaluation`: the vertex it
    returns and, in order, the operands it handed to the connector. */
module Dispatch {
  import opened Vertex
  import opened DayCount

  /** The result of coercing a fetched value to a number: the number, or
      the kind of the error the call returns as it is. */
  datatype Coerced = Numeric(x: real) | NonNumeric(kind: ErrorKind)

  /** The environment of a call: the connector, resolving an operand to its
      value (deterministic for a fixed grid within one action), and the
      coercion of that value to a number. */
  datatype Host = Host(fetch: CalcVertex -> CalcValue, asNumber: CalcValue -> Coerced)

  /** Fetch an operand through the connector and coerce it. */
  function Fetch(h: Host, v: CalcVertex): Coerced {
    h.asNumber(h.fetch(v))
  }

  /** What a call returns, and the operands it fetched, in fetch order. */
  datatype Evaluation = Evaluation(result: CalcVertex, calls: seq<CalcVertex>)

  /** A domain check on one numeric argument and the error kind it raises. */
  datatype Check = Positive(kind: ErrorKind) | NonNegative(kind: ErrorKind)

  predicate Passes(c: Check, x: real) {
    match c
    case Positive(_) => x > 0.0
    case NonNegative(_) => x >= 0.0
  }

  /** Operand `v` coerces to a number that passes check `c`. */
  predicate Accepts(h: Host, v: CalcVertex, c: Check) {
    Fetch(h, v).Numeric? && Passes(c, Fetch(h, v).x)
  }

  /** The result of a call whose operand `v` fails check `c`: a coercion
      failure comes back unchanged, a domain failure raises the check's
      own error kind. */
  function Rejection(h: Host, v: CalcVertex, c: Check): CalcVertex
    requires !Accepts(h, v, c)
  {
    match Fetch(h, v)
    case NonNumeric(k) => ErrorVertex(k)
    case Numeric(_) => ErrorVertex(c.kind)
  }

  /** Argument `k` is the first one of the chain to fail its check. */
  predicate FailsFirstAt(h: Host, args: seq<CalcVertex>, checks: seq<Check>, k: nat) {
    && k < |checks| && k < |args|
    && (forall i | 0 <= i < k :: Accepts(h, args[i], checks[i]))
    && !Accepts(h, args[k], checks[k])
  }

  /** The outcome of a check chain: every value, or the error of the first
      failing argument and its position; either way, the operands handed to
      the connector, in order. */
  datatype Fields =
    | Valid(values: seq<real>, fetched: seq<CalcVertex>)
    | Rejected(error: CalcVertex, at: nat, fetched: seq<CalcVertex>)

  /** Fetch `args[0..|checks|]` left to right, checking each one as it
      arrives and stopping at the first failure. */
  function FetchFields(h: Host, args: seq<CalcVertex>, checks: seq<Check>): (r: Fields)
    requires |checks| <= |args|
    ensures r.Valid? <==> forall i | 0 <= i < |checks| :: Accepts(h, args[i], checks[i])
    ensures r.Valid? ==>
              && |r.values| == |checks|
              && (forall i | 0 <= i < |checks| :: Fetch(h, args[i]) == Numeric(r.values[i]))
              && r.fetched == args[..|checks|]
    ensures r.Rejected? ==>
              && FailsFirstAt(h, args, checks, r.at)
              && r.error == Rejection(h, args[r.at], checks[r.at])
              && r.fetched == args[..r.at + 1]
    decreases |checks|
  {
    if checks == [] then Valid([], [])
    else if !Accepts(h, args[0], checks[0]) then Rejected(Rejection(h, args[0], checks[0]), 0, [args[0]])
    else
      match FetchFields(h, args[1..], checks[1..])
      case Valid(vs, rest) =>
        PrefixCons(args, |checks|);
        Valid([Fetch(h, args[0]).x] + vs, [args[0]] + rest)
      case Rejected(e, at, rest) =>
        PrefixCons(args, at + 2);
        Rejected(e, at + 1, [args[0]] + rest)
  }

  /** A non-empty prefix is the first element followed by a prefix of the
      tail. */
  lemma PrefixCons<T>(s: seq<T>, n: nat)
    requires 1 <= n <= |s|
    ensures [s[0]] + s[1..][..n - 1] == s[..n]
  {
  }

  /** The first argument at or after position `i` that fails its check,
      found by scanning the positions in order: a reference for where the
      chain stops. */
  function FirstFailure(h: Host, args: seq<CalcVertex>, checks: seq<Check>, i: nat): Option<nat>
    requires |checks| <= |args| && i <= |checks|
    decreases |checks| - i
  {
    if i == |checks| then None
    else if !Accepts(h, args[i], checks[i]) then Some(i)
    else FirstFailure(h, args, checks, i + 1)
  }

  /** Scanning from `i`, past arguments that all pass, finds the first
      failure of the whole chain, or none when every argument passes. */
  lemma {:induction false} FirstFailureFinds(h: Host, args: seq<CalcVertex>, checks: seq<Check>, i: nat)
    requires |checks| <= |args| && i <= |checks|
    requires forall j | 0 <= j < i :: Accepts(h, args[j], checks[j])
    ensures FirstFailure(h, args, checks, i).None? ==>
              forall j | 0 <= j < |checks| :: Accepts(h, args[j], checks[j])
    ensures FirstFailure(h, args, checks, i).Some? ==>
              FailsFirstAt(h, args, checks, FirstFailure(h, args, checks, i).value)
    decreases |checks| - i
  {
    if i < |checks| && Accepts(h, args[i], checks[i]) {
      FirstFailureFinds(h, args, checks, i + 1);
    }
  }

  /** The chain is rejected exactly when the scan finds a failing argument,
      and it stops at that argument, having fetched it and all before it. */
  lemma ChainStopsAtFirstFailure(h: Host, args: seq<CalcVertex>, checks: seq<Check>)
    requires |checks| <= |args|
    ensures FetchFields(h, args, checks).Rejected? <==> FirstFailure(h, args, checks, 0).Some?
    ensures FetchFields(h, args, checks).Rejected? ==>
              && FetchFields(h, args, checks).at == FirstFailure(h, args, checks, 0).value
              && FetchFields(h, args, checks).fetched == args[..FirstFailure(h, args, checks, 0).value + 1]
  {
    FirstFailureFinds(h, args, checks, 0);
  }

  /** The largest unsigned 32-bit integer. */
  const U32Max: nat := 0xFFFF_FFFF

  /** `x.floor() as u32`: the floor of `x`, saturated into 0..U32Max as a
      float-to-integer cast does. */
  function FloorToU32(x: real): (n: nat)
    ensures n <= U32Max
    ensures 0.0 <= x < (U32Max + 1) as real ==> n as real <= x < n as real + 1.0
    ensures x < 0.0 ==> n == 0
    ensures x >= U32Max as real ==> n == U32Max
  {
    var f := x.Floor;
    if f < 0 then 0 else if f > U32Max then U32Max else f
  }

  /** The basis code check and dispatch on an already coerced number:
      codes outside 0..4 are refused, others are truncated to an integer. */
  function BasisOfNumber(b: real): (r: Option<Basis>)
    ensures r.Some? <==> 0.0 <= b <= 4.0
    ensures r.Some? ==> Code(r.value) as real <= b < Code(r.value) as real + 1.0
  {
    if 0.0 <= b && b <= 4.0 then Some(FromCode(b.Floor)) else None
  }

  /** The outcome of the optional basis argument, with the operands it
      handed to the connector. */
  datatype BasisArg =
    | Chosen(basis: Basis, fetched: seq<CalcVertex>)
    | BasisRejected(error: CalcVertex, fetched: seq<CalcVertex>)

  /** The optional basis argument at position `i`, the position after the
      last checked field: absent means the default convention; present, it
      is fetched, coerced and checked. */
  function OptionalBasis(h: Host, args: seq<CalcVertex>, i: nat): (r: BasisArg)
    requires i <= |args| <= i + 1
    ensures r.fetched == args[i..]
    ensures |args| == i ==> r.Chosen? && r.basis == DefaultBasis
    ensures |args| > i ==> (r.Chosen? <==> Fetch(h, args[i]).Numeric? && 0.0 <= Fetch(h, args[i]).x <= 4.0)
    ensures |args| > i && r.Chosen? ==> Code(r.basis) == Fetch(h, args[i]).x.Floor
    ensures |args| > i && Fetch(h, args[i]).NonNumeric? ==> r.BasisRejected? && r.error == ErrorVertex(Fetch(h, args[i]).kind)
    ensures |args| > i && r.BasisRejected? && Fetch(h, args[i]).Numeric? ==> r.error == ErrorVertex(ErrorKind.Num)
  {
    if |args| == i then Chosen(DefaultBasis, [])
    else
      match Fetch(h, args[i])
      case NonNumeric(k) => BasisRejected(ErrorVertex(k), [args[i]])
      case Numeric(b) =>
        match BasisOfNumber(b)
        case None => BasisRejected(ErrorVertex(ErrorKind.Num), [args[i]])
        case Some(basis) => Chosen(basis, [args[i]])
  }
}
