/** What the calculator of screens/CalculatorScreen.tsx promises: the validation
    order, the unit and frequency tables, and the facts about each formula that do
    not depend on the value of `Math.pow`. */
module CalculatorProperties {
  import opened Wrappers
  import opened Banks
  import opened Calculator

  // ---------------------------------------------------------------------------
  // Validation
  // ---------------------------------------------------------------------------

  /** The form is accepted exactly when no check fails, and the error reported is
      the failing check that comes first in the order; so exactly one error is shown. */
  lemma {:induction false} ValidateReportsFirstFailure(amount: string, rate: string, time: string, parse: string -> Option<real>)
    ensures Validate(amount, rate, time, parse).Ok? <==> forall e :: !Fails(e, amount, rate, time, parse)
    ensures forall e :: Validate(amount, rate, time, parse) == Err(e) <==>
                        (Fails(e, amount, rate, time, parse) && forall e' :: Rank(e') < Rank(e) ==> !Fails(e', amount, rate, time, parse))
  {
    var r := Validate(amount, rate, time, parse);
    forall e ensures r == Err(e) <==> (Fails(e, amount, rate, time, parse) && forall e' :: Rank(e') < Rank(e) ==> !Fails(e', amount, rate, time, parse)) {
      if Fails(e, amount, rate, time, parse) && forall e' :: Rank(e') < Rank(e) ==> !Fails(e', amount, rate, time, parse) {
        assert e != MissingField ==> !Fails(MissingField, amount, rate, time, parse);
        assert Rank(e) > 1 ==> !Fails(NotANumber, amount, rate, time, parse);
        assert Rank(e) > 2 ==> !Fails(NonPositiveAmount, amount, rate, time, parse);
        assert Rank(e) > 3 ==> !Fails(NonPositiveRate, amount, rate, time, parse);
      }
    }
    if r.Err? {
      assert Fails(r.error, amount, rate, time, parse);
    }
  }

  /** An empty amount is reported as a missing field, whatever else is typed. */
  lemma MissingAmountScenario(parse: string -> Option<real>)
    ensures Validate("", "5", "2", parse) == Err(MissingField)
  {
  }

  /** "-100" for the amount, with "5" and "2" for rate and term, is a non-positive amount. */
  lemma NegativeAmountScenario(parse: string -> Option<real>)
    requires parse("-100") == Some(-100.0) && parse("5") == Some(5.0) && parse("2") == Some(2.0)
    ensures Validate("-100", "5", "2", parse) == Err(NonPositiveAmount)
  {
  }

  /** The five messages differ, so the text on screen tells which check failed. */
  lemma MessagesDistinct(e1: ValidationError, e2: ValidationError)
    requires e1 != e2
    ensures Message(e1) != Message(e2)
  {
  }

  // ---------------------------------------------------------------------------
  // Units and frequencies
  // ---------------------------------------------------------------------------

  /** The capitalization label whose period is one of the given unit. */
  function FrequencyOf(u: TimeUnit): string
  {
    match u
    case Years => "anual"
    case Semesters => "semestral"
    case Quarters => "trimestral"
    case Bimesters => "bimestral"
    case Months => "mensual"
    case Days => "diario"
    case Quinquennia => "quinquenal"
  }

  /** The frequency table and the unit conversion agree: a year holds as many
      capitalization periods as it holds units of the matching length, and that
      many units convert back to exactly one year (quinquennial included). */
  lemma FrequencyAgreesWithUnit(u: TimeUnit)
    ensures FrequencyOf(u) in FrequencyLabels
    ensures PeriodsPerYear(FrequencyOf(u)) == UnitsPerYear(u)
    ensures ToYears(PeriodsPerYear(FrequencyOf(u)), u) == 1.0
  {
  }

  /** A label outside the menu is treated as annual capitalization. */
  lemma UnknownFrequencyIsAnnual(frequency: string)
    requires frequency !in FrequencyLabels
    ensures PeriodsPerYear(frequency) == PeriodsPerYear("anual") == 1.0
  {
  }

  /** Every menu label has its own row in the table: no two menu options give the same
      number of periods, so none of them reaches the default arm. */
  lemma {:induction false} MenuLabelsDistinct()
    ensures forall i, j :: 0 <= i < j < |FrequencyLabels| ==> PeriodsPerYear(FrequencyLabels[i]) != PeriodsPerYear(FrequencyLabels[j])
  {
    var periods := [365.0, 12.0, 6.0, 4.0, 2.0, 1.0, 0.2];
    forall i | 0 <= i < |FrequencyLabels| ensures PeriodsPerYear(FrequencyLabels[i]) == periods[i] {
    }
  }

  /** n years written in any unit convert back to n years. */
  lemma YearsRoundTrip(n: real, u: TimeUnit)
    ensures ToYears(n * UnitsPerYear(u), u) == n
  {
  }

  /** A longer term in the same unit is never fewer years. */
  lemma ToYearsMonotonic(t1: real, t2: real, u: TimeUnit)
    requires t1 <= t2
    ensures ToYears(t1, u) <= ToYears(t2, u)
  {
  }

  /** Two terms that parse and come to the same number of years produce the same
      outcome in every mode: the same result, or the same error. */
  lemma {:induction false} EquivalentTermsSameOutcome(amount: string, rate: string, time1: string, unit1: TimeUnit,
                                                      time2: string, unit2: TimeUnit, mode: Mode, frequency: string,
                                                      parse: string -> Option<real>, pow: (real, real) -> real)
    requires time1 != "" && time2 != ""
    requires parse(time1).Some? && parse(time2).Some?
    requires ToYears(parse(time1).value, unit1) == ToYears(parse(time2).value, unit2)
    ensures Outcome(amount, rate, time1, unit1, mode, frequency, parse, pow)
         == Outcome(amount, rate, time2, unit2, mode, frequency, parse, pow)
  {
    var x1, x2 := parse(time1).value, parse(time2).value;
    assert x1 > 0.0 <==> x2 > 0.0 by {
      if x1 > 0.0 { assert ToYears(x1, unit1) > 0.0; }
      if x2 > 0.0 { assert ToYears(x2, unit2) > 0.0; }
    }
    var v1, v2 := Validate(amount, rate, time1, parse), Validate(amount, rate, time2, parse);
    if v1.Ok? {
      assert v2.Ok? && v1.value.principal == v2.value.principal && v1.value.annualRate == v2.value.annualRate;
    } else {
      assert v2 == v1;
    }
  }

  /** 24 months and 2 years give the same outcome in every mode. */
  lemma TwentyFourMonthsIsTwoYears(amount: string, rate: string, mode: Mode, frequency: string,
                                   parse: string -> Option<real>, pow: (real, real) -> real)
    requires parse("24") == Some(24.0) && parse("2") == Some(2.0)
    ensures Outcome(amount, rate, "24", Months, mode, frequency, parse, pow)
         == Outcome(amount, rate, "2", Years, mode, frequency, parse, pow)
  {
    EquivalentTermsSameOutcome(amount, rate, "24", Months, "2", Years, mode, frequency, parse, pow);
  }

  // ---------------------------------------------------------------------------
  // Formulas
  // ---------------------------------------------------------------------------

  /** Simple interest never looks at the compounding frequency (nor at `Math.pow`). */
  lemma SimpleIgnoresFrequency(principal: real, annualRate: real, years: real, periodsPerYear1: real, periodsPerYear2: real,
                               pow1: (real, real) -> real, pow2: (real, real) -> real)
    requires periodsPerYear1 > 0.0 && periodsPerYear2 > 0.0
    ensures Formula(Simple, principal, annualRate, years, periodsPerYear1, pow1)
         == Formula(Simple, principal, annualRate, years, periodsPerYear2, pow2)
  {
  }

  /** Simple interest on validated inputs is finite and exceeds the principal. */
  lemma SimpleExceedsPrincipal(principal: real, annualRate: real, years: real, periodsPerYear: real, pow: (real, real) -> real)
    requires principal > 0.0 && annualRate > 0.0 && years > 0.0 && periodsPerYear > 0.0
    ensures Formula(Simple, principal, annualRate, years, periodsPerYear, pow).Finite?
    ensures Formula(Simple, principal, annualRate, years, periodsPerYear, pow).value > principal
  {
    assert annualRate * years > 0.0;
    assert principal * (annualRate * years) > 0.0;
  }

  /** Simple interest grows with the principal, the rate and the term. */
  lemma SimpleMonotonic(principal1: real, principal2: real, annualRate1: real, annualRate2: real,
                        years1: real, years2: real, periodsPerYear: real, pow: (real, real) -> real)
    requires 0.0 < principal1 <= principal2 && 0.0 < annualRate1 <= annualRate2 && 0.0 < years1 <= years2
    requires periodsPerYear > 0.0
    ensures Formula(Simple, principal1, annualRate1, years1, periodsPerYear, pow).value
         <= Formula(Simple, principal2, annualRate2, years2, periodsPerYear, pow).value
  {
    var g1, g2 := 1.0 + annualRate1 * years1, 1.0 + annualRate2 * years2;
    MulMonotone(annualRate1, annualRate2, years1);
    MulMonotone(years1, years2, annualRate2);
    MulPositive(annualRate1, years1);
    MulMonotone(principal1, principal2, g1);
    MulMonotone(g1, g2, principal2);
  }

  lemma MulMonotone(a: real, b: real, c: real)
    requires a <= b && 0.0 <= c
    ensures a * c <= b * c && c * a <= c * b
  {
  }

  lemma MulPositive(a: real, b: real)
    requires 0.0 < a && 0.0 < b
    ensures 0.0 < a * b
  {
  }

  /** Compound interest with annual capitalization is the principal times (1 + rate)^years. */
  lemma CompoundAnnualIsYearly(principal: real, annualRate: real, years: real, pow: (real, real) -> real)
    ensures Formula(Compound, principal, annualRate, years, PeriodsPerYear("anual"), pow)
         == Finite(principal * Pow(pow, 1.0 + annualRate, years))
  {
    assert PeriodsPerYear("anual") == 1.0;
    assert annualRate / 1.0 == annualRate && 1.0 * years == years;
  }

  /** Amortization pays monthly whatever frequency is selected. */
  lemma AmortizationIgnoresFrequency(principal: real, annualRate: real, years: real, periodsPerYear1: real, periodsPerYear2: real,
                                     pow: (real, real) -> real)
    requires periodsPerYear1 > 0.0 && periodsPerYear2 > 0.0
    ensures Formula(Amortization, principal, annualRate, years, periodsPerYear1, pow)
         == Formula(Amortization, principal, annualRate, years, periodsPerYear2, pow)
  {
  }

  /** An annuity with monthly capitalization is exactly the amortization payment. */
  lemma AnnuityMonthlyIsAmortization(principal: real, annualRate: real, years: real, periodsPerYear: real,
                                     pow: (real, real) -> real)
    requires periodsPerYear > 0.0
    ensures Formula(Annuity, principal, annualRate, years, PeriodsPerYear("mensual"), pow)
         == Formula(Amortization, principal, annualRate, years, periodsPerYear, pow)
  {
    assert 12.0 * years == years * 12.0;
  }

  /** Once the form validates, the rate is positive, so over exact reals neither
      amortization nor annuity can take its straight-line branch: both are dead code on
      the screen. (In doubles, a rate small enough to underflow when divided still reaches them.) */
  lemma ValidatedNeverStraightLine(amount: string, rate: string, time: string, parse: string -> Option<real>,
                                   mode: Mode, frequency: string)
    requires Validate(amount, rate, time, parse).Ok?
    ensures !TakesStraightLine(mode, Validate(amount, rate, time, parse).value.annualRate, PeriodsPerYear(frequency))
  {
    var i := Validate(amount, rate, time, parse).value;
    assert i.annualRate / PeriodsPerYear(frequency) > 0.0;
  }

  /** The straight-line branch itself: at a zero rate an annuity of 5000 over 5 years,
      capitalized annually, pays 1000 a period; on the screen a zero rate is rejected first. */
  lemma ZeroRateAnnuityScenario(pow: (real, real) -> real, parse: string -> Option<real>)
    requires parse("5000") == Some(5000.0) && parse("0") == Some(0.0) && parse("5") == Some(5.0)
    ensures Formula(Annuity, 5000.0, 0.0, 5.0, PeriodsPerYear("anual"), pow) == Finite(1000.0)
    ensures Outcome("5000", "0", "5", Years, Annuity, "anual", parse, pow) == Err(NonPositiveRate)
  {
  }

  /** 10000 at 5% simple interest for 2 years ends at 11000. */
  lemma SimpleScenario(frequency: string, parse: string -> Option<real>, pow: (real, real) -> real)
    requires parse("10000") == Some(10000.0) && parse("5") == Some(5.0) && parse("2") == Some(2.0)
    ensures Outcome("10000", "5", "2", Years, Simple, frequency, parse, pow) == Ok(Finite(11000.0))
  {
  }

  // ---------------------------------------------------------------------------
  // Rate auto-fill
  // ---------------------------------------------------------------------------

  /** A rate pre-filled from a catalogue bank, read back by the validator, reaches the
      formulas as that bank's percentage divided by 100, in every mode. */
  lemma PrefilledRateReachesFormula(k: nat, mode: Mode, amount: string, time: string,
                                    parse: string -> Option<real>, show: real -> string)
    requires k < |Catalogue()|
    requires show(RateFor(Catalogue()[k].rates, mode)) != ""
    requires parse(show(RateFor(Catalogue()[k].rates, mode))) == Some(RateFor(Catalogue()[k].rates, mode))
    requires amount != "" && time != ""
    requires parse(amount).Some? && parse(amount).value > 0.0
    requires parse(time).Some? && parse(time).value > 0.0
    ensures Validate(amount, show(RateFor(Catalogue()[k].rates, mode)), time, parse)
         == Ok(Inputs(parse(amount).value, RateFor(Catalogue()[k].rates, mode) / 100.0, parse(time).value))
  {
    assert PositiveRates(Catalogue()[k].rates);
  }
}
