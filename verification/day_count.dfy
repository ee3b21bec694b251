/** The five day-count conventions of the bond functions and their basis
    codes. The conventions' own arithmetic (days between two dates, year
    fraction) is not part of this model; a formula receives the chosen
    `Basis` and is free to interpret it. */
module DayCount {

  datatype Basis = UsPsa30_360 | ActualActual | Actual360 | Actual365 | Europe30_360

  /** The convention used when the basis argument is omitted. */
  const DefaultBasis: Basis := UsPsa30_360

  /** The basis code a convention is selected by. */
  function Code(b: Basis): (k: nat)
    ensures k <= 4
  {
    match b
    case UsPsa30_360 => 0
    case ActualActual => 1
    case Actual360 => 2
    case Actual365 => 3
    case Europe30_360 => 4
  }

  /** The convention selected by basis code `k`. */
  function FromCode(k: nat): (b: Basis)
    requires k <= 4
    ensures Code(b) == k
  {
    match k
    case 0 => UsPsa30_360
    case 1 => ActualActual
    case 2 => Actual360
    case 3 => Actual365
    case 4 => Europe30_360
  }

  /** Every convention is selected by its own code, so the five codes pick
      five different conventions. */
  lemma CodeRoundTrip(b: Basis)
    ensures FromCode(Code(b)) == b
  {
  }

  lemma FromCodeInjective(j: nat, k: nat)
    requires j <= 4 && k <= 4 && j != k
    ensures FromCode(j) != FromCode(k)
  {
  }

  lemma DefaultIsCodeZero()
    ensures Code(DefaultBasis) == 0
  {
  }
}
