/** The financial calculator of screens/CalculatorScreen.tsx: input validation,
    time-unit conversion, the compounding-frequency table, the four formulas,
    and the screen state (`rate`, `result`, `error`) that the calculation and
    the rate auto-fill update.

    JavaScript's `parseFloat`, `Number.prototype.toString` and `Math.pow` are
    not modelled: they are parameters (`parse`, `show`, `pow`) that the
    properties below hold for whatever they are. */
module Calculator {
  import opened Wrappers
  import opened Banks

  /** `TimeUnit`: 'años' | 'semestres' | 'trimestres' | 'bimestres' | 'meses' | 'días' | 'quinquenios'. */
  datatype TimeUnit = Years | Semesters | Quarters | Bimesters | Months | Days | Quinquennia

  /** `CalculationType`: 'simple' | 'compound' | 'amortization' | 'annuity'. */
  datatype Mode = Simple | Compound | Amortization | Annuity

  /** A JavaScript number as far as the formulas need it: a division by zero
      gives `Infinity` or `NaN`, both collapsed into `NotFinite`. */
  datatype Num = Finite(value: real) | NotFinite

  /** The five validation messages, in the order they are checked. */
  datatype ValidationError = MissingField | NotANumber | NonPositiveAmount | NonPositiveRate | NonPositiveTerm

  /** The parsed triple handed to the formulas; `annualRate` is already divided by 100. */
  datatype Inputs = Inputs(principal: real, annualRate: real, timeValue: real)

  /** The text `setError` puts on screen for each validation error. */
  function Message(e: ValidationError): (text: string)
    ensures text != ""
  {
    match e
    case MissingField => "Por favor complete todos los campos"
    case NotANumber => "Por favor ingrese valores numéricos válidos"
    case NonPositiveAmount => "El monto debe ser mayor a 0"
    case NonPositiveRate => "La tasa de interés debe ser mayor a 0"
    case NonPositiveTerm => "El plazo debe ser mayor a 0"
  }

  /** JavaScript division: a zero divisor gives a non-finite number. */
  function Div(a: real, b: real): (r: Num)
    ensures r.Finite? <==> b != 0.0
    ensures r.Finite? ==> r.value == a / b
  {
    if b == 0.0 then NotFinite else Finite(a / b)
  }

  /** `Math.pow(base, exponent)`, applied through the model `pow` of it. */
  function Pow(pow: (real, real) -> real, base: real, exponent: real): real
  {
    pow(base, exponent)
  }

  // ---------------------------------------------------------------------------
  // Frequency resolver
  // ---------------------------------------------------------------------------

  /** The labels the capitalization menu offers. */
  const FrequencyLabels: seq<string> :=
    ["diario", "mensual", "bimestral", "trimestral", "semestral", "anual", "quinquenal"]

  /** `getCapitalizationPeriodsPerYear`: how many capitalizations a year holds.
      Any label outside the table counts as annual. */
  function PeriodsPerYear(frequency: string): (r: real)
    ensures r > 0.0
    ensures r in {365.0, 12.0, 6.0, 4.0, 2.0, 1.0, 0.2}
  {
    match frequency
    case "diario" => 365.0
    case "mensual" => 12.0
    case "bimestral" => 6.0
    case "trimestral" => 4.0
    case "semestral" => 2.0
    case "anual" => 1.0
    case "quinquenal" => 0.2
    case _ => 1.0
  }

  // ---------------------------------------------------------------------------
  // Unit normalizer
  // ---------------------------------------------------------------------------

  /** How many of a unit make one year: an independent table the conversion is checked against. */
  function UnitsPerYear(u: TimeUnit): (r: real)
    ensures r > 0.0
  {
    match u
    case Years => 1.0
    case Semesters => 2.0
    case Quarters => 4.0
    case Bimesters => 6.0
    case Months => 12.0
    case Days => 365.0
    case Quinquennia => 0.2
  }

  /** The unit conversion of `calculateInterest`: a term in unit u, in years. */
  function ToYears(timeValue: real, u: TimeUnit): (years: real)
    ensures years == timeValue / UnitsPerYear(u)
    ensures timeValue > 0.0 ==> years > 0.0
  {
    match u
    case Years => timeValue
    case Quinquennia => timeValue * 5.0
    case Semesters => timeValue / 2.0
    case Quarters => timeValue / 4.0
    case Bimesters => timeValue / 6.0
    case Months => timeValue / 12.0
    case Days => timeValue / 365.0
  }

  // ---------------------------------------------------------------------------
  // Input validator
  // ---------------------------------------------------------------------------

  /** The checks of `calculateInterest`, in order; the first one that fails is the
      only error reported. `parse` stands for `parseFloat`, with `None` for `NaN`. */
  function Validate(amount: string, rate: string, time: string, parse: string -> Option<real>): (r: Result<Inputs, ValidationError>)
    ensures r.Ok? ==> amount != "" && rate != "" && time != ""
    ensures r.Ok? ==> parse(amount) == Some(r.value.principal)
                      && parse(rate) == Some(r.value.annualRate * 100.0)
                      && parse(time) == Some(r.value.timeValue)
    ensures r.Ok? ==> r.value.principal > 0.0 && r.value.annualRate > 0.0 && r.value.timeValue > 0.0
  {
    var principal := parse(amount);
    var percent := parse(rate);
    var timeValue := parse(time);
    if amount == "" || rate == "" || time == "" then Err(MissingField)
    else if principal.None? || percent.None? || timeValue.None? then Err(NotANumber)
    else if principal.value <= 0.0 then Err(NonPositiveAmount)
    else if percent.value / 100.0 <= 0.0 then Err(NonPositiveRate)
    else if timeValue.value <= 0.0 then Err(NonPositiveTerm)
    else Ok(Inputs(principal.value, percent.value / 100.0, timeValue.value))
  }

  /** Whether check e, taken on its own, rejects the form (an order-free reference for Validate). */
  predicate Fails(e: ValidationError, amount: string, rate: string, time: string, parse: string -> Option<real>)
  {
    match e
    case MissingField => amount == "" || rate == "" || time == ""
    case NotANumber => parse(amount).None? || parse(rate).None? || parse(time).None?
    case NonPositiveAmount => parse(amount).Some? && parse(amount).value <= 0.0
    case NonPositiveRate => parse(rate).Some? && parse(rate).value <= 0.0
    case NonPositiveTerm => parse(time).Some? && parse(time).value <= 0.0
  }

  /** The position of each check in the validation order. */
  function Rank(e: ValidationError): nat
  {
    match e
    case MissingField => 0
    case NotANumber => 1
    case NonPositiveAmount => 2
    case NonPositiveRate => 3
    case NonPositiveTerm => 4
  }

  // ---------------------------------------------------------------------------
  // Formula engine
  // ---------------------------------------------------------------------------

  /** Simple interest: the principal plus interest on the principal alone. */
  function SimpleAmount(principal: real, annualRate: real, years: real): Num
  {
    Finite(principal * (1.0 + annualRate * years))
  }

  /** Compound interest: the principal capitalized `periods` times at `ratePerPeriod`. */
  function CompoundAmount(principal: real, ratePerPeriod: real, periods: real, pow: (real, real) -> real): Num
  {
    Finite(principal * Pow(pow, 1.0 + ratePerPeriod, periods))
  }

  /** The level payment that repays `principal` over `periods` periods at `periodRate`;
      straight-line when the rate is zero. The amortization arm writes the numerator as
      `principal * rate * pow(..)` and the annuity arm as `principal * (rate * pow(..))`:
      the same real number. */
  function LevelPayment(principal: real, periodRate: real, periods: real, pow: (real, real) -> real): (r: Num)
    ensures periodRate == 0.0 ==> (r.Finite? <==> periods != 0.0)
    ensures periodRate == 0.0 && r.Finite? ==> r.value * periods == principal
    ensures periodRate != 0.0 ==> (r.Finite? <==> Pow(pow, 1.0 + periodRate, periods) != 1.0)
    ensures periodRate != 0.0 && r.Finite? ==>
              r.value * (Pow(pow, 1.0 + periodRate, periods) - 1.0) == principal * periodRate * Pow(pow, 1.0 + periodRate, periods)
  {
    if periodRate == 0.0 then Div(principal, periods)
    else Div(principal * periodRate * Pow(pow, 1.0 + periodRate, periods), Pow(pow, 1.0 + periodRate, periods) - 1.0)
  }

  /** Off the zero-rate branch, the level payment is the amortization arm's quotient and,
      equally, the annuity arm's, whose numerator is grouped the other way. */
  lemma PaymentNumeratorGrouping(principal: real, periodRate: real, periods: real, pow: (real, real) -> real)
    requires periodRate != 0.0
    ensures LevelPayment(principal, periodRate, periods, pow)
            == Div(principal * periodRate * Pow(pow, 1.0 + periodRate, periods), Pow(pow, 1.0 + periodRate, periods) - 1.0)
            == Div(principal * (periodRate * Pow(pow, 1.0 + periodRate, periods)), Pow(pow, 1.0 + periodRate, periods) - 1.0)
  {
  }

  /** The four-way switch of `calculateInterest` on already converted inputs. Amortization
      always pays monthly; compound and annuity use the selected periods per year. */
  function Formula(mode: Mode, principal: real, annualRate: real, years: real, periodsPerYear: real,
                   pow: (real, real) -> real): (r: Num)
    requires periodsPerYear > 0.0
    ensures r.NotFinite? ==> mode == Amortization || mode == Annuity
    ensures mode == Simple ==> r == Finite(principal + principal * annualRate * years)
  {
    match mode
    case Simple => SimpleAmount(principal, annualRate, years)
    case Compound => CompoundAmount(principal, annualRate / periodsPerYear, periodsPerYear * years, pow)
    case Amortization => LevelPayment(principal, annualRate / 12.0, years * 12.0, pow)
    case Annuity => LevelPayment(principal, annualRate / periodsPerYear, periodsPerYear * years, pow)
  }

  /** Whether the formula for this mode takes its straight-line (zero-rate) branch. */
  predicate TakesStraightLine(mode: Mode, annualRate: real, periodsPerYear: real)
    requires periodsPerYear > 0.0
  {
    (mode == Amortization && annualRate / 12.0 == 0.0) || (mode == Annuity && annualRate / periodsPerYear == 0.0)
  }

  /** What one press of "Calcular" produces from the form: an error, or the number stored as `result`. */
  function Outcome(amount: string, rate: string, time: string, unit: TimeUnit, mode: Mode, frequency: string,
                   parse: string -> Option<real>, pow: (real, real) -> real): (r: Result<Num, ValidationError>)
    ensures r.Err? ==> Fails(r.error, amount, rate, time, parse)
    ensures r.Err? ==> forall e' :: Rank(e') < Rank(r.error) ==> !Fails(e', amount, rate, time, parse)
    ensures r.Ok? <==> forall e :: !Fails(e, amount, rate, time, parse)
    ensures r.Ok? && r.value.NotFinite? ==> mode == Amortization || mode == Annuity
  {
    match Validate(amount, rate, time, parse)
    case Err(e) => assert Fails(e, amount, rate, time, parse); Err(e)
    case Ok(i) => Ok(Formula(mode, i.principal, i.annualRate, ToYears(i.timeValue, unit), PeriodsPerYear(frequency), pow))
  }

  /** The `timeInYears` switch of `calculateInterest`: years stay as they are, every
      other unit is scaled. */
  method ConvertToYears(timeValue: real, timeUnit: TimeUnit) returns (timeInYears: real)
    ensures timeInYears == ToYears(timeValue, timeUnit)
  {
    timeInYears := timeValue;
    match timeUnit {
      case Quinquennia => timeInYears := timeValue * 5.0;
      case Semesters => timeInYears := timeValue / 2.0;
      case Quarters => timeInYears := timeValue / 4.0;
      case Bimesters => timeInYears := timeValue / 6.0;
      case Months => timeInYears := timeValue / 12.0;
      case Days => timeInYears := timeValue / 365.0;
      case Years =>
    }
  }

  /** The `calculatedResult` switch of `calculateInterest`. */
  method Dispatch(mode: Mode, principal: real, annualRate: real, timeInYears: real, periodsPerYear: real,
                  pow: (real, real) -> real) returns (calculatedResult: Num)
    requires periodsPerYear > 0.0
    ensures calculatedResult == Formula(mode, principal, annualRate, timeInYears, periodsPerYear, pow)
  {
    calculatedResult := Finite(0.0);
    match mode {
      case Simple =>
        calculatedResult := Finite(principal * (1.0 + annualRate * timeInYears));
        assert calculatedResult == SimpleAmount(principal, annualRate, timeInYears);
      case Compound =>
        var ratePerPeriod := annualRate / periodsPerYear;
        var totalPeriods := periodsPerYear * timeInYears;
        calculatedResult := Finite(principal * Pow(pow, 1.0 + ratePerPeriod, totalPeriods));
        assert calculatedResult == CompoundAmount(principal, ratePerPeriod, totalPeriods, pow);
      case Amortization =>
        var monthlyRate := annualRate / 12.0;
        var months := timeInYears * 12.0;
        if monthlyRate == 0.0 {
          calculatedResult := Div(principal, months);
          assert calculatedResult == LevelPayment(principal, monthlyRate, months, pow);
        } else {
          calculatedResult := Div(principal * monthlyRate * Pow(pow, 1.0 + monthlyRate, months), Pow(pow, 1.0 + monthlyRate, months) - 1.0);
          PaymentNumeratorGrouping(principal, monthlyRate, months, pow);
          assert calculatedResult == LevelPayment(principal, monthlyRate, months, pow);
        }
      case Annuity =>
        var periodRate := annualRate / periodsPerYear;
        var totalAnnuityPeriods := periodsPerYear * timeInYears;
        if periodRate == 0.0 {
          calculatedResult := Div(principal, totalAnnuityPeriods);
          assert calculatedResult == LevelPayment(principal, periodRate, totalAnnuityPeriods, pow);
        } else {
          calculatedResult := Div(principal * (periodRate * Pow(pow, 1.0 + periodRate, totalAnnuityPeriods)), Pow(pow, 1.0 + periodRate, totalAnnuityPeriods) - 1.0);
          PaymentNumeratorGrouping(principal, periodRate, totalAnnuityPeriods, pow);
          assert calculatedResult == LevelPayment(principal, periodRate, totalAnnuityPeriods, pow);
        }
    }
  }

  // ---------------------------------------------------------------------------
  // Rate auto-fill
  // ---------------------------------------------------------------------------

  /** Which of the bank's rates pre-fills the rate field in each mode. */
  function RateFor(rates: Rates, mode: Mode): (r: real)
    ensures mode == Simple || mode == Compound ==> r == rates.savings
    ensures mode == Amortization ==> r == rates.mortgage
    ensures mode == Annuity ==> r == rates.personal
  {
    match mode
    case Simple => rates.savings
    case Compound => rates.savings
    case Amortization => rates.mortgage
    case Annuity => rates.personal
  }

  // ---------------------------------------------------------------------------
  // The screen
  // ---------------------------------------------------------------------------

  /** The state of the calculator screen for one bank. */
  class CalculatorScreen {
    const bankId: string
    const banks: seq<Bank>
    const parse: string -> Option<real>
    const show: real -> string
    const pow: (real, real) -> real

    var amount: string
    var rate: string
    var time: string
    var timeUnit: TimeUnit
    var mode: Mode
    var frequency: string
    var result: Option<Num>
    var error: Option<ValidationError>

    /** The rate the auto-fill effect leaves in the field: the bank's rate for the
        mode, or the current text when no bank has the id. */
    function AutoRate(m: Mode, current: string): string
      reads this
    {
      match FindBank(banks, bankId)
      case Some(b) => show(RateFor(b.rates, m))
      case None => current
    }

    /** The `error` text on screen: the message of the check that failed, or '' when
        there is none. */
    function ErrorText(): (text: string)
      reads this
      ensures text == "" <==> error.None?
      ensures error.Some? ==> text == Message(error.value)
    {
      if error.Some? then Message(error.value) else ""
    }

    /** Mounting the screen: empty fields, 'años', simple mode, annual capitalization,
        then the effect runs once. */
    constructor(bankId: string, banks: seq<Bank>, parse: string -> Option<real>, show: real -> string, pow: (real, real) -> real)
      ensures this.bankId == bankId && this.banks == banks
      ensures this.parse == parse && this.show == show && this.pow == pow
      ensures amount == "" && time == "" && timeUnit == Years && mode == Simple && frequency == "anual"
      ensures rate == AutoRate(Simple, "")
      ensures result == None && error == None
    {
      this.bankId := bankId;
      this.banks := banks;
      this.parse := parse;
      this.show := show;
      this.pow := pow;
      amount, rate, time := "", "", "";
      timeUnit, mode, frequency := Years, Simple, "anual";
      result, error := None, None;
      new;
      ApplyAutoRate();
    }

    /** The auto-fill effect: overwrite `rate` with the bank's rate for the current mode. */
    method ApplyAutoRate()
      modifies this`rate
      ensures rate == AutoRate(mode, old(rate))
    {
      var currentBank := FindBank(banks, bankId);
      if currentBank.Some? {
        var autoRate := "";
        match mode {
          case Simple =>
            autoRate := show(currentBank.value.rates.savings);
          case Compound =>
            autoRate := show(currentBank.value.rates.savings);
          case Amortization =>
            autoRate := show(currentBank.value.rates.mortgage);
          case Annuity =>
            autoRate := show(currentBank.value.rates.personal);
        }
        rate := autoRate;
      }
    }

    /** Picking a calculation type. The effect depends on the type, so it reruns
        only when the type actually changes. */
    method SelectMode(m: Mode)
      modifies this`mode, this`rate
      ensures mode == m
      ensures rate == if m == old(mode) then old(rate) else AutoRate(m, old(rate))
    {
      if m != mode {
        mode := m;
        ApplyAutoRate();
      }
    }

    method EditAmount(s: string)
      modifies this`amount
      ensures amount == s
    {
      amount := s;
    }

    method EditRate(s: string)
      modifies this`rate
      ensures rate == s
    {
      rate := s;
    }

    method EditTime(s: string)
      modifies this`time
      ensures time == s
    {
      time := s;
    }

    method SelectTimeUnit(u: TimeUnit)
      modifies this`timeUnit
      ensures timeUnit == u
    {
      timeUnit := u;
    }

    method SelectFrequency(choice: string)
      modifies this`frequency
      ensures frequency == choice
    {
      frequency := choice;
    }

    /** `calculateInterest`: clear the error, then either report the first failing
        check (leaving the previous result on screen) or store the new result. */
    method Calculate()
      modifies this`error, this`result
      ensures match Outcome(amount, rate, time, timeUnit, mode, frequency, parse, pow)
              case Err(e) => error == Some(e) && result == old(result)
              case Ok(v) => error == None && result == Some(v)
    {
      var principal := parse(amount);
      var annualRate := if parse(rate).Some? then Some(parse(rate).value / 100.0) else None;
      var timeValue := parse(time);

      error := None;

      if amount == "" || rate == "" || time == "" {
        error := Some(MissingField);
        return;
      }
      if principal.None? || annualRate.None? || timeValue.None? {
        error := Some(NotANumber);
        return;
      }
      if principal.value <= 0.0 {
        error := Some(NonPositiveAmount);
        return;
      }
      if annualRate.value <= 0.0 {
        error := Some(NonPositiveRate);
        return;
      }
      if timeValue.value <= 0.0 {
        error := Some(NonPositiveTerm);
        return;
      }

      var timeInYears := ConvertToYears(timeValue.value, timeUnit);
      var periodsPerYear := PeriodsPerYear(frequency);
      var calculatedResult := Dispatch(mode, principal.value, annualRate.value, timeInYears, periodsPerYear, pow);
      assert Validate(amount, rate, time, parse) == Ok(Inputs(principal.value, annualRate.value, timeValue.value));
      result := Some(calculatedResult);
    }
  }
}
