# Ecuadorian banking app: interest calculator and branch directory

This project models two screens of a React Native banking app, together with the bank catalogue they read.

- **The financial calculator** (`CalculatorScreen.tsx`). The user types an amount, an annual rate in percent and a term. They pick a time unit, a calculation type and a capitalization frequency, then press "Calcular". The screen checks the form in a fixed order and reports the first failing check as its only error. Otherwise it converts the term to years, resolves the frequency to periods per year and applies one of four formulas:
  - simple interest;
  - compound interest;
  - monthly amortization;
  - a periodic annuity.

  Whenever the calculation type changes, an effect pre-fills the rate field from the selected bank's savings, mortgage or personal-loan rate.
- **The branch and ATM directory** (`LocationScreen.tsx`). A module-level dictionary maps a bank id to the bank's locations in Quito, Guayaquil, Riobamba and Cuenca. Banks '1' and '2' have hand-written tables. When the module loads, a generator gives banks '3' to '11' a templated table labelled with the bank's name. The screen looks up the selected bank and city and splits the list into branches and ATMs.
- **The bank catalogue** (`banks.ts`). Only each bank's id, name and three headline rates are modelled, along with lookup by id.

## Modules

| file | module | what |
|---|---|---|
| `wrappers.dfy` | `Wrappers` | `Option` and `Result` |
| `banks.dfy` | `Banks` | the eleven banks, `FindBank` (`Array.prototype.find` by id) |
| `calculator.dfy` | `Calculator` | validation, unit and frequency tables, the formulas, and the `CalculatorScreen` class holding the screen state |
| `calculator_properties.dfy` | `CalculatorProperties` | lemmas about the calculator |
| `locations.dfy` | `Locations` | location data, the generator as a method on the `LocationDirectory` class, lookup and filters |
| `locations_properties.dfy` | `LocationsProperties` | lemmas about the directory |

## Modelling conventions

- **Opaque JavaScript builtins become parameters.** `parseFloat`, `Number.prototype.toString` and `Math.pow` are passed in as the functions `parse: string -> Option<real>`, `show: real -> string` and `pow: (real, real) -> real`. A `NaN` from `parseFloat` is `None`. Every property holds whatever these functions are; a property that needs something from them says so in its `requires`.
- **Numbers are exact reals.** A division by zero, which JavaScript turns into `Infinity` or `NaN`, is the value `NotFinite` of the datatype `Num`.
- **The capitalization frequency is kept as its label string.** The source's switch has a default arm (any other label counts as annual), and the model keeps that arm. Time units and calculation types become closed datatypes, as their switches are in the source.
- **The rate effect depends on `[calculationType, currentBank]`.** It therefore runs once on mount, which is the end of the `CalculatorScreen` constructor. It runs again only when the calculation type actually changes (`SelectMode`). The bank id is fixed for the life of the screen.
- **The generator's loop is modelled where it runs.** `generateLocationDataForAllBanks` mutates the module-level `locationData` object. The model makes that a method on the `LocationDirectory` class, and the class's constructor runs it once, as the module does at load time.

## Model

| member | source | states |
|---|---|---|
| Banks.FindBank | banking-app-ec/src/screens/CalculatorScreen.tsx:34 | `Some(b)` only for a catalogue bank with the id and no earlier bank with that id; `None` exactly when no bank has the id |
| Banks.CatalogueLookup | banking-app-ec/src/data/banks.ts:27-435 | each of the eleven catalogue banks is what a lookup by its own id returns (ids are distinct) |
| Banks.Catalogue | banking-app-ec/src/data/banks.ts:27-435 | the catalogue holds eleven banks, each with a non-empty name and positive savings, mortgage and personal rates |
| Calculator.Div | banking-app-ec/src/screens/CalculatorScreen.tsx:144-161 | a quotient is finite exactly when the divisor is non-zero, and then it is the dividend divided by the divisor |
| Calculator.PeriodsPerYear | banking-app-ec/src/screens/CalculatorScreen.tsx:56-67 | the periods per year are always positive and always one of 365, 12, 6, 4, 2, 1 or 0.2 |
| Calculator.UnitsPerYear | banking-app-ec/src/screens/CalculatorScreen.tsx:101-122 | how many of each unit make a year (an independent reference table), always positive |
| Calculator.ToYears | banking-app-ec/src/screens/CalculatorScreen.tsx:101-122 | the term in years is the term divided by the units per year of its unit, and is positive when the term is |
| Calculator.ConvertToYears | banking-app-ec/src/screens/CalculatorScreen.tsx:101-122 | the imperative unit switch computes exactly `ToYears` |
| Calculator.Message | banking-app-ec/src/screens/CalculatorScreen.tsx:77-97 | every validation message is non-empty text |
| Calculator.Validate | banking-app-ec/src/screens/CalculatorScreen.tsx:69-99 | on success, every field is non-empty, each parses to the returned value (the rate to 100 times the returned fraction), and all three are positive |
| Calculator.Dispatch | banking-app-ec/src/screens/CalculatorScreen.tsx:124-163 | the imperative four-way switch computes exactly `Formula` for every mode, including the zero-rate branches |
| Calculator.LevelPayment | banking-app-ec/src/screens/CalculatorScreen.tsx:140-161 | at a zero rate the payment is finite exactly when there are periods, and payment times periods is the principal; otherwise it is finite exactly when (1 + rate)^n is not 1, and payment times ((1 + rate)^n - 1) equals principal times rate times (1 + rate)^n |
| Calculator.Formula | banking-app-ec/src/screens/CalculatorScreen.tsx:124-163 | only amortization and annuity can produce a non-finite value; simple interest is the principal plus principal times rate times years |
| Calculator.Outcome | banking-app-ec/src/screens/CalculatorScreen.tsx:69-166 | a reported error is a check that fails while every earlier check passes; a result comes out exactly when no check fails; a non-finite result only in amortization or annuity mode |
| Calculator.RateFor | banking-app-ec/src/screens/CalculatorScreen.tsx:40-51 | simple and compound interest pre-fill the savings rate, amortization the mortgage rate, and annuity the personal-loan rate |
| Calculator.CalculatorScreen.constructor | banking-app-ec/src/screens/CalculatorScreen.tsx:19-54 | the initial state is empty fields, 'años', simple mode, 'anual', no result and no error; the rate field is what the effect leaves after its first run |
| Calculator.CalculatorScreen.ApplyAutoRate | banking-app-ec/src/screens/CalculatorScreen.tsx:37-54 | with a matching bank, the rate field becomes the text of its rate for the current mode; otherwise it is untouched |
| Calculator.CalculatorScreen.SelectMode | banking-app-ec/src/screens/CalculatorScreen.tsx:27-54 | the mode is set; the rate is re-filled only when the mode changed |
| Calculator.CalculatorScreen.EditAmount | banking-app-ec/src/screens/CalculatorScreen.tsx:23 | the amount field holds the typed text |
| Calculator.CalculatorScreen.EditRate | banking-app-ec/src/screens/CalculatorScreen.tsx:24 | the rate field holds the typed text |
| Calculator.CalculatorScreen.EditTime | banking-app-ec/src/screens/CalculatorScreen.tsx:25 | the term field holds the typed text |
| Calculator.CalculatorScreen.SelectTimeUnit | banking-app-ec/src/screens/CalculatorScreen.tsx:26 | the selected unit is stored |
| Calculator.CalculatorScreen.SelectFrequency | banking-app-ec/src/screens/CalculatorScreen.tsx:28 | the selected frequency label is stored |
| Calculator.CalculatorScreen.Calculate | banking-app-ec/src/screens/CalculatorScreen.tsx:69-166 | a press either sets `error` to the first failing check and leaves the previous result, or clears the error and stores the formula's value for the validated, converted inputs |
| Calculator.CalculatorScreen.ErrorText | banking-app-ec/src/screens/CalculatorScreen.tsx:30-97 | no error text is shown exactly when no check has failed; otherwise the text is the failing check's message |
| CalculatorProperties.ValidateReportsFirstFailure | banking-app-ec/src/screens/CalculatorScreen.tsx:74-99 | the form is accepted iff no check fails; error e is reported iff check e fails and every earlier check passes |
| CalculatorProperties.MissingAmountScenario | banking-app-ec/src/screens/CalculatorScreen.tsx:76-79 | an empty amount with rate "5" and term "2" is a missing field |
| CalculatorProperties.NegativeAmountScenario | banking-app-ec/src/screens/CalculatorScreen.tsx:86-89 | amount "-100" with rate "5" and term "2" is a non-positive amount |
| CalculatorProperties.MessagesDistinct | banking-app-ec/src/screens/CalculatorScreen.tsx:77-97 | different checks show different messages, so the text on screen identifies the failed check |
| CalculatorProperties.FrequencyAgreesWithUnit | banking-app-ec/src/screens/CalculatorScreen.tsx:56-122 | each unit's matching frequency is a menu label whose periods per year equal that unit's count per year, and that many units convert to exactly one year |
| CalculatorProperties.UnknownFrequencyIsAnnual | banking-app-ec/src/screens/CalculatorScreen.tsx:65 | any label outside the menu resolves like 'anual', to 1 |
| CalculatorProperties.MenuLabelsDistinct | banking-app-ec/src/screens/CalculatorScreen.tsx:56-67 | no two menu labels give the same periods per year |
| CalculatorProperties.YearsRoundTrip | banking-app-ec/src/screens/CalculatorScreen.tsx:101-122 | n years written in any unit convert back to n years |
| CalculatorProperties.ToYearsMonotonic | banking-app-ec/src/screens/CalculatorScreen.tsx:101-122 | a longer term in the same unit is never fewer years |
| CalculatorProperties.EquivalentTermsSameOutcome | banking-app-ec/src/screens/CalculatorScreen.tsx:69-166 | two parseable terms that convert to the same years give the same outcome (result or error) in every mode |
| CalculatorProperties.TwentyFourMonthsIsTwoYears | banking-app-ec/src/screens/CalculatorScreen.tsx:101-122 | "24" months and "2" years give the same outcome in every mode |
| CalculatorProperties.SimpleIgnoresFrequency | banking-app-ec/src/screens/CalculatorScreen.tsx:128-131 | simple interest does not depend on the frequency or on `Math.pow` |
| CalculatorProperties.SimpleExceedsPrincipal | banking-app-ec/src/screens/CalculatorScreen.tsx:128-131 | on positive inputs simple interest is finite and larger than the principal |
| CalculatorProperties.SimpleMonotonic | banking-app-ec/src/screens/CalculatorScreen.tsx:128-131 | simple interest is non-decreasing in principal, rate and term |
| CalculatorProperties.CompoundAnnualIsYearly | banking-app-ec/src/screens/CalculatorScreen.tsx:133-138 | annual compounding is principal times (1 + rate) to the power of the years |
| CalculatorProperties.AmortizationIgnoresFrequency | banking-app-ec/src/screens/CalculatorScreen.tsx:140-150 | amortization is the same whatever frequency is selected |
| CalculatorProperties.AnnuityMonthlyIsAmortization | banking-app-ec/src/screens/CalculatorScreen.tsx:140-162 | an annuity with monthly capitalization equals the amortization payment |
| CalculatorProperties.ValidatedNeverStraightLine | banking-app-ec/src/screens/CalculatorScreen.tsx:144-157 | after validation the rate is positive, so neither zero-rate branch can be taken |
| CalculatorProperties.ZeroRateAnnuityScenario | banking-app-ec/src/screens/CalculatorScreen.tsx:152-162 | at rate 0 the annuity formula pays 5000 / 5 = 1000, while the screen rejects rate "0" first |
| CalculatorProperties.SimpleScenario | banking-app-ec/src/screens/CalculatorScreen.tsx:128-131 | 10000 at 5% simple for 2 years gives 11000 |
| CalculatorProperties.PrefilledRateReachesFormula | banking-app-ec/src/screens/CalculatorScreen.tsx:37-99 | a catalogue rate pre-filled as text and parsed back passes validation and reaches the formulas as that rate / 100 |
| Locations.BankName | banking-app-ec/src/screens/LocationScreen.tsx:209 | the label is never empty; it is the found bank's name when that name is non-empty, and 'Banco' when no bank has the id or its name is empty |
| Locations.HandWritten | banking-app-ec/src/screens/LocationScreen.tsx:25-202 | the hand-written dictionary has tables for exactly the ids '1' and '2' |
| Locations.Template | banking-app-ec/src/screens/LocationScreen.tsx:211-283 | each city's template starts with a branch, followed by at least one location, all of them ATMs |
| Locations.Fill | banking-app-ec/src/screens/LocationScreen.tsx:211-283 | filling keeps the length and every location but the first; the first gets the bank's name appended to its name |
| Locations.GeneratedEntry | banking-app-ec/src/screens/LocationScreen.tsx:211-283 | each city's list is that city's template, identical except that the bank's name is appended to the branch's name |
| Locations.Generate | banking-app-ec/src/screens/LocationScreen.tsx:207-286 | walking a list of ids never replaces a table that already exists |
| Locations.WithGenerated | banking-app-ec/src/screens/LocationScreen.tsx:205-289 | the generator run over '3' to '11' never replaces a table that already exists |
| Locations.LocationDirectory.constructor | banking-app-ec/src/screens/LocationScreen.tsx:25-289 | after loading, the dictionary is the hand-written tables with the generator applied once |
| Locations.LocationDirectory.GenerateForAllBanks | banking-app-ec/src/screens/LocationScreen.tsx:204-287 | the dictionary becomes its old contents with ids '3' to '11' generated where missing |
| Locations.LocationDirectory.GenerateMissing | banking-app-ec/src/screens/LocationScreen.tsx:207-286 | the loop over the ids leaves the dictionary equal to `Generate` of its old contents |
| Locations.CityLocations | banking-app-ec/src/screens/LocationScreen.tsx:297 | a bank without a table has no locations; otherwise the list is that bank's list for the city |
| Locations.Filter | banking-app-ec/src/screens/LocationScreen.tsx:298-299 | the result is no longer than the input and holds exactly the input's locations of the requested type |
| Locations.ScreenView | banking-app-ec/src/screens/LocationScreen.tsx:296-299 | the header bank is the first bank with the id, and is missing exactly when no bank has it; the branches and the ATMs are exactly the city's locations of each type |
| LocationsProperties.GenerateSpec | banking-app-ec/src/screens/LocationScreen.tsx:207-286 | the generator adds exactly the missing ids, keeps every existing table, and gives each added id the table built from its bank's name |
| LocationsProperties.GenerateIdempotent | banking-app-ec/src/screens/LocationScreen.tsx:208 | running the generator twice is the same as once |
| LocationsProperties.HandWrittenKept | banking-app-ec/src/screens/LocationScreen.tsx:25-208 | banks '1' and '2' keep their hand-written tables after loading |
| LocationsProperties.AfterLoad | banking-app-ec/src/screens/LocationScreen.tsx:205-286 | on a dictionary without '3' to '11', each of those ids gets the table generated from its bank's name |
| LocationsProperties.LoadedKeys | banking-app-ec/src/screens/LocationScreen.tsx:25-289 | after loading, the dictionary's ids are exactly '1', '2' and the generated ids |
| LocationsProperties.CatalogueListed | banking-app-ec/src/screens/LocationScreen.tsx:205-289 | after loading, every catalogue bank has a table |
| LocationsProperties.GeneratedUsesBankName | banking-app-ec/src/screens/LocationScreen.tsx:209-215 | an id from '3' to '11' whose bank is found with a non-empty name gets the template labelled with that name |
| LocationsProperties.CatalogueNamesUsed | banking-app-ec/src/screens/LocationScreen.tsx:209 | against the catalogue, ids '3' to '11' find their own bank, whose name is non-empty |
| LocationsProperties.GeneratedBranch | banking-app-ec/src/screens/LocationScreen.tsx:211-283 | each city of a generated table has exactly one branch, and its name ends with the bank's name |
| LocationsProperties.GeneratedAtms | banking-app-ec/src/screens/LocationScreen.tsx:211-283 | a generated table has two ATMs in Quito and Guayaquil and one in Riobamba and Cuenca, all open "24 horas" with no services |
| LocationsProperties.FilterConcat | banking-app-ec/src/screens/LocationScreen.tsx:298-299 | filtering distributes over concatenation, so order is kept |
| LocationsProperties.FilterIdempotent | banking-app-ec/src/screens/LocationScreen.tsx:298-299 | filtering twice by the same type changes nothing |
| LocationsProperties.FilterPartition | banking-app-ec/src/screens/LocationScreen.tsx:298-299 | the branches and the ATMs together are the city's list as a multiset |
| LocationsProperties.ScreenShowsEverything | banking-app-ec/src/screens/LocationScreen.tsx:296-299 | the screen shows every location of the bank and city exactly once, each under its own type |
| LocationsProperties.UnknownBankShowsNothing | banking-app-ec/src/screens/LocationScreen.tsx:297-299 | a bank id without a table shows two empty lists |
| LocationsProperties.UnknownBankNotInCatalogue | banking-app-ec/src/screens/LocationScreen.tsx:296 | such an id names no catalogue bank, so the header lookup finds nothing |

## Left out

- Rendering is not modelled: JSX, styles, menus, the city chips and the result labels (`CalculatorScreen.tsx` lines 315-326). Locale currency formatting of the result (line 312) is also left out.
- The selected city is a parameter of `ScreenView`. The screen's `useState('quito')` holding it is not modelled.
- `Math.pow`, `parseFloat` and `Number.prototype.toString` are parameters, so properties that depend on their values are not stated:
  - daily compounding at least matches annual compounding;
  - an amortization payment times the months exceeds the principal;
  - the numeric scenarios for compound (about 11268.25) and amortization (about 1030.20).
- Double-precision rounding, overflow and underflow are not modelled; numbers are exact reals.
- Underflow to zero in the rate is not modelled. In IEEE doubles a rate such as "5e-322" passes the rate check (line 91), since 5e-324 is positive. Dividing it by 12 (line 142) then gives exactly 0, so the zero test at line 144 passes and the straight-line `principal / months` runs. The same happens in the annuity arm with 'mensual' (lines 153-156). Over exact reals this cannot happen.
- `Infinity` parses as a number in JavaScript but has no counterpart in `Option<real>`. `parseFloat`'s acceptance of trailing text is left to the `parse` parameter.
- React's scheduling is not modelled. Updates are applied in order, one method call per user action.
- Calculator.Validate: the rate check is written as the code has it, on the parsed percentage divided by 100. Over exact reals this is the same as checking the percentage itself.
- The zero-rate branches of amortization and annuity are modelled as written. Over exact reals they are dead code on the screen, because validation rejects a zero rate first (`ValidatedNeverStraightLine`); with doubles the underflow case above still reaches them. So the 5000-at-0% annuity example holds for the formula but cannot be reached through the form (`ZeroRateAnnuityScenario`).
- A zero derived period count is not guarded by the code. The model follows the code, and `Div` yields `NotFinite` there. For exact reals a positive term always gives a positive period count.
- The rest of `banks.ts` is not modelled: descriptions, services, requirements and insurance. Only the id, name and three rates of each bank are kept.
- Locations.LocationDirectory.GenerateMissing: takes the id list as a parameter. `GenerateForAllBanks` passes the fixed list '3' to '11', as the source does.
