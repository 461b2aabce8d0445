/** `bmi_cat`: the BMI weight-status label, an if-chain of `<` comparisons
    against 18.5, 25 and 30 that falls through to "obese". The BMI is a Python
    float; every comparison with NaN is false, so NaN falls through too. */
module Bmi {

  /** An IEEE double as far as comparisons with finite constants go: its exact
      value, or one of the two infinities, or NaN. */
  datatype Float = Finite(x: real) | PosInf | NegInf | NaN

  /** `f < t` for a finite threshold t. */
  predicate Below(f: Float, t: real) {
    match f
    case Finite(x) => x < t
    case NegInf => true
    case PosInf => false
    case NaN => false
  }

  /** The order of doubles without NaN. */
  predicate AtMost(a: Float, b: Float)
    requires !a.NaN? && !b.NaN?
  {
    a.NegInf? || b.PosInf? || (a.Finite? && b.Finite? && a.x <= b.x)
  }

  datatype BmiCategory = Underweight | Normal | Overweight | Obese

  function CategoryLabel(c: BmiCategory): string {
    match c
    case Underweight => "underweight"
    case Normal => "normal"
    case Overweight => "overweight"
    case Obese => "obese"
  }

  function Rank(c: BmiCategory): nat {
    match c
    case Underweight => 0
    case Normal => 1
    case Overweight => 2
    case Obese => 3
  }

  /** The category of a BMI. For a finite BMI each band includes its lower
      bound and excludes its upper one. */
  function BmiCat(b: Float): (r: BmiCategory)
    ensures b.Finite? ==> (r == Underweight <==> b.x < 18.5)
    ensures b.Finite? ==> (r == Normal <==> 18.5 <= b.x < 25.0)
    ensures b.Finite? ==> (r == Overweight <==> 25.0 <= b.x < 30.0)
    ensures b.Finite? ==> (r == Obese <==> 30.0 <= b.x)
  {
    if Below(b, 18.5) then Underweight
    else if Below(b, 25.0) then Normal
    else if Below(b, 30.0) then Overweight
    else Obese
  }

  /** The values that are not finite: NaN passes every test as false. */
  lemma BmiNonFinite()
    ensures BmiCat(NaN) == Obese
    ensures BmiCat(PosInf) == Obese
    ensures BmiCat(NegInf) == Underweight
  {
  }

  /** A larger BMI never gets a lighter category. */
  lemma BmiMonotone(a: Float, b: Float)
    requires !a.NaN? && !b.NaN? && AtMost(a, b)
    ensures Rank(BmiCat(a)) <= Rank(BmiCat(b))
  {
  }

  lemma BmiExamples()
    ensures BmiCat(Finite(18.4)) == Underweight && BmiCat(Finite(18.5)) == Normal
    ensures BmiCat(Finite(24.9)) == Normal && BmiCat(Finite(25.0)) == Overweight
    ensures BmiCat(Finite(29.9)) == Overweight && BmiCat(Finite(30.0)) == Obese
  {
  }
}
