/** internal/platform/money: an exact amount tied to a registered currency. */
module Money {
  import opened Wrappers
  import opened Decimals

  datatype RoundingMode = RoundHalfUp | RoundHalfEven | RoundDown

  datatype MoneyError = UnregisteredCurrency | CurrencyMismatch

  datatype Money = Money(amount: real, currency: string) {
    /** Every Money is built by New, which checks the currency. */
    predicate Valid() { MinorDigits(currency).Some? }
  }

  /** Minor-unit digits of the registered currencies. */
  function MinorDigits(code: string): Option<nat> {
    if code in {"INR", "USD", "EUR", "GBP", "AED", "SGD", "AUD", "CAD"} then Some(2)
    else if code == "JPY" then Some(0)
    else if code in {"KWD", "BHD", "OMR"} then Some(3)
    else None
  }

  /** An amount counted in the currency's minor units. */
  function Scaled(x: real, currency: string): real
    requires MinorDigits(currency).Some?
  {
    var d := MinorDigits(currency).value;
    if d == 0 then x else if d == 2 then x * 100.0 else x * 1000.0
  }

  function Unscaled(x: real, currency: string): real
    requires MinorDigits(currency).Some?
  {
    var d := MinorDigits(currency).value;
    if d == 0 then x else if d == 2 then x / 100.0 else x / 1000.0
  }

  /** ISO 4217: a yen has no minor unit, the three dinars and rials have a thousand, the others a hundred. */
  lemma {:induction false} UnitsPerMajor(code: string)
    ensures MinorDigits(code).Some? <==> code in {"INR", "USD", "EUR", "GBP", "AED", "SGD", "AUD", "CAD", "JPY",
                                                  "KWD", "BHD", "OMR"}
    ensures MinorDigits(code).Some? ==>
      && Scaled(1.0, code)
         == (if code == "JPY" then 1.0 else if code in {"KWD", "BHD", "OMR"} then 1000.0 else 100.0)
      && forall x :: Unscaled(Scaled(x, code), code) == x
  {
  }

  function New(amount: real, currency: string): Result<Money, MoneyError> {
    if MinorDigits(currency).None? then Err(UnregisteredCurrency) else Ok(Money(amount, currency))
  }

  function Add(m: Money, n: Money): Result<Money, MoneyError> {
    if m.currency != n.currency then Err(CurrencyMismatch) else Ok(Money(m.amount + n.amount, m.currency))
  }

  function Sub(m: Money, n: Money): Result<Money, MoneyError> {
    if m.currency != n.currency then Err(CurrencyMismatch) else Ok(Money(m.amount - n.amount, m.currency))
  }

  function Neg(m: Money): Money {
    Money(-m.amount, m.currency)
  }

  /** The amount in minor units, before any rounding. */
  function InMinorUnits(m: Money): real
    requires m.Valid()
  {
    Scaled(m.amount, m.currency)
  }

  /** The whole number of minor units that Round keeps. */
  function Minor(m: Money, mode: RoundingMode): int
    requires m.Valid()
  {
    match mode
    case RoundHalfUp => HalfAway(InMinorUnits(m))
    case RoundHalfEven => HalfEven(InMinorUnits(m))
    case RoundDown => Truncate(InMinorUnits(m))
  }

  function OfMinor(n: int, currency: string): Money
    requires MinorDigits(currency).Some?
  {
    Money(Unscaled(n as real, currency), currency)
  }

  function Round(m: Money, mode: RoundingMode): Money
    requires m.Valid()
  {
    OfMinor(Minor(m, mode), m.currency)
  }

  lemma {:induction false} MinorOfMinor(n: int, currency: string, mode: RoundingMode)
    requires MinorDigits(currency).Some?
    ensures Minor(OfMinor(n, currency), mode) == n
  {
    HalfAwayOfInteger(n);
  }

  /** Rounding a second time, in any mode, changes nothing. */
  lemma {:induction false} RoundOnce(m: Money, first: RoundingMode, second: RoundingMode)
    requires m.Valid()
    ensures Round(Round(m, first), second) == Round(m, first)
  {
    MinorOfMinor(Minor(m, first), m.currency, second);
  }

  /** Amounts add up exactly within one currency, and subtracting takes back what was added. */
  lemma {:induction false} SumsAndDifferences(m: Money, n: Money)
    ensures Add(m, n).Ok? <==> m.currency == n.currency
    ensures Sub(m, n).Ok? <==> m.currency == n.currency
    ensures Add(m, n).Ok? ==> Add(m, n) == Add(n, m) && Sub(Add(m, n).value, n) == Ok(m)
    ensures Sub(m, n).Ok? ==> Sub(m, n) == Add(m, Neg(n)) && Add(Sub(m, n).value, n) == Ok(m)
  {
  }

  /** A reversed amount rounds to the reversed rounded amount, in every mode. */
  lemma {:induction false} RoundOfNeg(m: Money, mode: RoundingMode)
    requires m.Valid()
    ensures Round(Neg(m), mode) == Neg(Round(m, mode))
  {
    RoundingIsOdd(InMinorUnits(m));
    assert InMinorUnits(Neg(m)) == -InMinorUnits(m);
  }

  /** How the three modes relate: the two half modes are nearest and part ways exactly on a
    * tie whose smaller neighbour is even; RoundDown never grows an amount and loses less
    * than one minor unit. */
  lemma {:induction false} RoundingModes(m: Money)
    requires m.Valid()
    ensures var x := InMinorUnits(m);
      && Abs(Minor(m, RoundHalfUp) as real - x) <= 0.5
      && Abs(Minor(m, RoundHalfEven) as real - x) <= 0.5
      && (Minor(m, RoundHalfUp) != Minor(m, RoundHalfEven) <==> IsTie(x) && Truncate(x) % 2 == 0)
      && Abs(Minor(m, RoundDown) as real) <= Abs(x)
      && Abs(x) - Abs(Minor(m, RoundDown) as real) < 1.0
  {
    var x := InMinorUnits(m);
    if IsTie(x) {
      assert x + 0.5 == (x.Floor + 1) as real;
      assert (0.5 - x).Floor == -x.Floor;
      if x < 0.0 {
        assert (-x).Floor == -x.Floor - 1;
      }
    }
  }
}
