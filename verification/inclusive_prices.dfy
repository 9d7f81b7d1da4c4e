/** Inclusive prices and negative taxable values: the taxable value of an inclusive line is its rounded
  * gross less its rounded tax, so it is negative when three small components all round up. */
module InclusivePrices {
  import opened Wrappers
  import opened Decimals
  import opened Money
  import opened Gst
  import opened GstLaws

  /** GST and cess of 150.00015000015 per cent in all. */
  const TOO_MUCH: RateColumn := 150000150000150

  /** An amount out of a numeric(20,6) column, and not below zero. */
  predicate StoredAmount(m: Money) {
    m.amount >= 0.0 && FromColumn(ToColumn(m.amount)) == m.amount
  }

  // ---------- Up to the limit ----------

  /** Three parts of at most six tenths of a whole, give or take a little, cannot round past it except
    * by rounding a whole below two and a half up to three. */
  lemma {:induction false} PartsWithinWhole(a: real, b: real, c: real, whole: real)
    requires a >= 0.0 && b >= 0.0 && c >= 0.0 && whole >= 0.0
    requires a + b + c <= 0.60003 * whole + 0.001 && (whole < 2.5 ==> a + b + c < 1.5)
    ensures 0 <= HalfAway(a) + HalfAway(b) + HalfAway(c) <= HalfAway(whole)
  {
    var n := HalfAway(whole);
    assert whole < n as real + 0.5;
    HalfAwayIsNearest(a);
    HalfAwayIsNearest(b);
    HalfAwayIsNearest(c);
    if n <= 2 { FewParts(a, b, c, whole); }
  }

  lemma {:induction false} FewParts(a: real, b: real, c: real, whole: real)
    requires a >= 0.0 && b >= 0.0 && c >= 0.0 && 0.0 <= whole < 2.5
    requires a + b + c <= 0.60003 * whole + 0.001 && a + b + c < 1.5
    ensures HalfAway(a) + HalfAway(b) + HalfAway(c) <= HalfAway(whole)
  {
    assert a < 0.5 || b < 0.5 || c < 0.5;
    assert HalfAway(a) <= 1 && HalfAway(b) <= 1 && HalfAway(c) <= 1;
    assert HalfAway(whole) == if whole < 0.5 then 0 else if whole < 1.5 then 1 else 2;
  }

  lemma {:induction false} NotNegativeQuotient(x: real, t: real)
    requires x >= 0.0 && t > 0.0
    ensures x / t >= 0.0
  {
    Quotient(x, t);
    CancelPositive(0.0, x / t, t);
  }

  /** The tax in an inclusive amount grows with the rate. */
  lemma {:induction false} TaxAtMost(x: real, rate: real, limit: real)
    requires x >= 0.0 && 0.0 <= rate <= limit
    ensures x / (1.0 + rate) >= 0.0 && (1.0 + limit) * TaxOn(x / (1.0 + rate), rate) <= limit * x
  {
    var q := x / (1.0 + rate);
    SplitAmount(x, rate);
    NotNegativeQuotient(x, 1.0 + rate);
    LessTaxed(q, rate, limit, TaxOn(q, rate), x);
  }

  lemma {:induction false} LessTaxed(q: real, rate: real, limit: real, tax: real, x: real)
    requires q >= 0.0 && 0.0 <= rate <= limit && tax == q * rate && q + tax == x
    ensures (1.0 + limit) * tax <= limit * x
  {
    assert q * (limit - rate) >= 0.0;
    assert q * (limit - rate) == limit * q - tax;
    assert limit * x == limit * q + limit * tax;
  }

  lemma {:induction false} PartsNotNegative(line: TaxableLine, r: TaxRate, place: Place)
    requires line.amount.Valid() && r.Valid() && line.mode.Inclusive? && line.amount.amount >= 0.0
    ensures var cs := LineComponents(line, r, place);
            AmountAt(cs, 0) >= 0.0 && AmountAt(cs, 1) >= 0.0 && AmountAt(cs, 2) >= 0.0
  {
    RateIsNotNegative(r);
    NotNegativeQuotient(line.amount.amount, 1.0 + CombinedRate(r));
    Round16IsNearest(line.amount.amount / (1.0 + CombinedRate(r)));
    var taxable := TaxableUnrounded(line.amount.amount, line.mode, r);
    hide Div, Share;
    AmountIsNear(r, taxable, place, line.amount.currency, 0);
    AmountIsNear(r, taxable, place, line.amount.currency, 1);
    AmountIsNear(r, taxable, place, line.amount.currency, 2);
  }

  function Times(x: real, y: real): real {
    x * y
  }

  lemma {:induction false} ExactTaxAtMost(line: TaxableLine, r: TaxRate, limit: real)
    requires r.Valid() && line.mode.Inclusive? && line.amount.amount >= 0.0 && CombinedRate(r) <= limit
    ensures Times(1.0 + limit, ExactTax(line, r)) <= Times(limit, line.amount.amount)
  {
    RateIsNotNegative(r);
    hide CombinedRate, TaxOn;
    TaxAtMost(line.amount.amount, CombinedRate(r), limit);
  }

  lemma {:induction false} SlackAtMost(line: TaxableLine, r: TaxRate, place: Place)
    requires line.amount.Valid() && r.Valid() && CombinedRate(r) <= 3.0
    ensures Slack(line, r, place) <= Tiny(6.0)
  {
    hide CombinedRate, LineComponents;
  }

  lemma {:induction false} UnroundedShare(line: TaxableLine, r: TaxRate, place: Place, limit: real)
    requires line.amount.Valid() && r.Valid() && line.mode.Inclusive? && line.amount.amount >= 0.0
    requires 0.0 <= CombinedRate(r) <= limit <= 3.0
    ensures var tax := Unrounded(LineComponents(line, r, place));
            Times(1.0 + limit, tax - Tiny(6.0)) <= Times(limit, line.amount.amount)
  {
    UnroundedIsNear(line, r, place);
    SlackAtMost(line, r, place);
    ExactTaxAtMost(line, r, limit);
    hide *;
    var tax, exact := Unrounded(LineComponents(line, r, place)), ExactTax(line, r);
    assert tax - Tiny(6.0) <= exact;
    TimesGrows(1.0 + limit, tax - Tiny(6.0), exact);
  }

  lemma {:induction false} TimesGrows(factor: real, x: real, y: real)
    requires x <= y && 0.0 <= factor
    ensures Times(factor, x) <= Times(factor, y)
  {
    assert factor * (y - x) >= 0.0;
  }

  lemma {:induction false} TaxWithinGross(line: TaxableLine, r: TaxRate, place: Place)
    requires line.amount.Valid() && r.Valid() && line.mode.Inclusive? && line.amount.amount >= 0.0
    requires var cs, currency := LineComponents(line, r, place), line.amount.currency;
      && AmountAt(cs, 0) >= 0.0 && AmountAt(cs, 1) >= 0.0 && AmountAt(cs, 2) >= 0.0
      && Scaled(Unrounded(cs), currency) <= 0.60003 * InMinorUnits(line.amount) + 0.001
      && (InMinorUnits(line.amount) < 2.5 ==> Scaled(Unrounded(cs), currency) < 1.5)
    ensures var m := LineMinors(line, r, place); 0 <= m.tax <= m.gross && m.taxable >= 0
  {
    var cs, currency := LineComponents(line, r, place), line.amount.currency;
    LineCurrency(line, r, place);
    TaxMinorOfThree(cs, currency);
    PartsWithinWhole(Scaled(AmountAt(cs, 0), currency), Scaled(AmountAt(cs, 1), currency),
                     Scaled(AmountAt(cs, 2), currency),
                     Scaled(line.amount.amount, currency));
  }

  /** An inclusive line of any non-negative amount, taxed at no more than 149% in all, has a tax between
    * zero and its rounded gross, so its taxable value is not negative. */
  lemma {:induction false} InclusiveTaxableNotNegative(line: TaxableLine, r: TaxRate, place: Place)
    requires line.amount.Valid() && r.Valid() && line.mode.Inclusive? && line.amount.amount >= 0.0
    requires r.gst + r.cess <= 149000000000000
    ensures var m := LineMinors(line, r, place); 0 <= m.tax <= m.gross && m.taxable >= 0
  {
    RateIsNotNegative(r);
    PartsNotNegative(line, r, place);
    UnroundedShare(line, r, place, 1.49);
    var cs, currency := LineComponents(line, r, place), line.amount.currency;
    ShareScaled(Unrounded(cs), line.amount.amount, currency);
    TaxWithinGross(line, r, place);
  }

  lemma {:induction false} ShareScaled(tax: real, x: real, currency: string)
    requires MinorDigits(currency).Some? && x >= 0.0 && 2.49 * (tax - Tiny(6.0)) <= 1.49 * x
    ensures Scaled(tax, currency) <= 0.60003 * Scaled(x, currency) + 0.001
    ensures Scaled(x, currency) < 2.5 ==> Scaled(tax, currency) < 1.5
  {
  }

  /** What the column can hold below two and a half minor units. */
  lemma {:induction false} StoredBelow(m: Money)
    requires m.Valid() && StoredAmount(m) && InMinorUnits(m) < 2.5
    ensures InMinorUnits(m) <= 2.5 - Scaled(0.000001, m.currency)
  {
    var c := ToColumn(m.amount);
    assert m.amount * 1000000.0 == c as real;
  }

  lemma {:induction false} StoredShareScaled(tax: real, x: real, currency: string)
    requires MinorDigits(currency).Some? && x >= 0.0 && 2.50000150000149 * (tax - Tiny(6.0)) <= 1.50000150000149 * x
    requires Scaled(x, currency) < 2.5 ==> Scaled(x, currency) <= 2.5 - Scaled(0.000001, currency)
    ensures Scaled(tax, currency) <= 0.60003 * Scaled(x, currency) + 0.001
    ensures Scaled(x, currency) < 2.5 ==> Scaled(tax, currency) < 1.5
  {
  }

  /** For stored amounts the same holds up to the limit. */
  lemma {:induction false} StoredTaxableNotNegative(line: TaxableLine, r: TaxRate, place: Place)
    requires line.amount.Valid() && r.Valid() && line.mode.Inclusive? && StoredAmount(line.amount)
    requires r.gst + r.cess < TOO_MUCH
    ensures var m := LineMinors(line, r, place); 0 <= m.tax <= m.gross && m.taxable >= 0
  {
    RateIsNotNegative(r);
    PartsNotNegative(line, r, place);
    UnroundedShare(line, r, place, 1.50000150000149);
    var cs, currency := LineComponents(line, r, place), line.amount.currency;
    if InMinorUnits(line.amount) < 2.5 { StoredBelow(line.amount); }
    StoredShareScaled(Unrounded(cs), line.amount.amount, currency);
    TaxWithinGross(line, r, place);
  }

  // ---------- At the limit ----------

  /** The three components of a supply within a state. */
  lemma {:induction false} PartsWithinState(line: TaxableLine, r: TaxRate, unionTerritory: bool)
    requires line.amount.Valid() && r.Valid() && r.gst > 0 && r.cess > 0 && 1.0 + CombinedRate(r) != 0.0
    ensures var cs := LineComponents(line, r, Place(true, unionTerritory));
            var taxable := TaxableUnrounded(line.amount.amount, line.mode, r);
      && AmountAt(cs, 0) == AmountAt(cs, 1) == Share(taxable, FromRate(r.gst) / 2.0)
      && AmountAt(cs, 2) == Share(taxable, FromRate(r.cess))
  {
    RateIsNotNegative(r);
    hide Share, CombinedRate, TaxableUnrounded, FromRate;
  }

  lemma {:induction false} RoundsUp(x: real)
    requires x >= 0.5
    ensures HalfAway(x) >= 1
  {
  }

  /** Three components of at least half a minor unit each, on an amount below two and a half. */
  lemma {:induction false} ThreeHalves(line: TaxableLine, r: TaxRate, unionTerritory: bool, taxable: real)
    requires line.amount.Valid() && r.Valid() && line.mode.Inclusive? && r.gst > 0 && r.cess > 0
    requires 1.0 + CombinedRate(r) != 0.0 && taxable == TaxableUnrounded(line.amount.amount, line.mode, r)
    requires InMinorUnits(line.amount) < 2.5
    requires Scaled(Share(taxable, FromRate(r.gst) / 2.0), line.amount.currency) >= 0.5
    requires Scaled(Share(taxable, FromRate(r.cess)), line.amount.currency) >= 0.5
    ensures var m := LineMinors(line, r, Place(true, unionTerritory)); m.gross <= 2 && m.tax >= 3 && m.taxable < 0
  {
    var cs, currency := LineComponents(line, r, Place(true, unionTerritory)), line.amount.currency;
    PartsWithinState(line, r, unionTerritory);
    LineCurrency(line, r, Place(true, unionTerritory));
    hide LineComponents, Share, CombinedRate, TaxableUnrounded, FromRate, Scaled, TaxMinor, AmountAt;
    TaxMinorOfThree(cs, currency);
    RoundsUp(Scaled(AmountAt(cs, 0), currency));
    RoundsUp(Scaled(AmountAt(cs, 2), currency));
  }

  /** 2.49 paise inclusive of 102% GST and 51% cess: two paise of gross and three of tax. */
  lemma {:induction false} TaxCanExceedGross(lineRef: string, hsn: string, classification: string, unionTerritory: bool)
    ensures var line := TaxableLine(lineRef, hsn, Money(0.0249, "INR"), Inclusive);
            var r := TaxRate(102000000000000, 51000000000000, classification);
      && r.Valid() && StoredAmount(line.amount)
      && var m := LineMinors(line, r, Place(true, unionTerritory)); m.gross == 2 && m.tax >= 3 && m.taxable < 0
  {
    var line := TaxableLine(lineRef, hsn, Money(0.0249, "INR"), Inclusive);
    var r := TaxRate(102000000000000, 51000000000000, classification);
    RateIsNotNegative(r);
    var taxable := TaxableUnrounded(0.0249, Inclusive, r);
    assert FromRate(r.gst) == 102.0 && FromRate(r.cess) == 51.0 && CombinedRate(r) == 1.53;
    QuotientBetween(0.0249, 2.53, 0.0098, 0.01);
    Round16IsNearest(0.0249 / 2.53);
    ShareIsNearest(taxable, 51.0);
    ThreeHalves(line, r, unionTerritory, taxable);
  }

  /** Every such line with stored amount keeps a taxable value that is not negative. */
  ghost predicate NeverNegativeUpTo(limit: RateColumn) {
    forall line: TaxableLine, r: TaxRate, place: Place
      | Priced(line, r) && r.gst + r.cess <= limit :: LineMinors(line, r, place).taxable >= 0
  }

  /** An inclusive line with a stored amount and a configured rate. */
  predicate Priced(line: TaxableLine, r: TaxRate) {
    line.amount.Valid() && r.Valid() && line.mode.Inclusive? && StoredAmount(line.amount)
  }

  /** At the limit 2.499999 yen divide into components of half a yen each, to 16 places. */
  lemma {:induction false} LimitReached()
    ensures var line := TaxableLine("", "", Money(2.499999, "JPY"), Inclusive);
            var r := TaxRate(100000100000100, 50000050000050, "");
            Priced(line, r) && r.gst + r.cess == TOO_MUCH && LineMinors(line, r, Place(true, false)).taxable < 0
  {
    var line := TaxableLine("", "", Money(2.499999, "JPY"), Inclusive);
    var r := TaxRate(100000100000100, 50000050000050, "");
    RateIsNotNegative(r);
    assert FromRate(r.gst) == 100.0001000001 && FromRate(r.cess) == 50.00005000005
        && CombinedRate(r) == 1.5000015000015;
    QuotientBetween(2.499999, 2.5000015000015, 0.999999, 0.99999900000000001);
    Round16To(2.499999 / 2.5000015000015, 9999990000000000);
    Round16To(0.999999 * 50.00005000005 / 100.0, 5000000000000000);
    ThreeHalves(line, r, false, 0.999999);
  }

  /** An inclusive line out of the database keeps a taxable value that is not negative, whatever its
    * amount, currency and place, exactly at combined rates below 150.00015000015%. */
  lemma {:induction false} TaxableNotNegativeExactly(limit: RateColumn)
    ensures NeverNegativeUpTo(limit) <==> limit < TOO_MUCH
  {
    if limit < TOO_MUCH {
      forall line: TaxableLine, r: TaxRate, place: Place | Priced(line, r) && r.gst + r.cess <= limit
        ensures LineMinors(line, r, place).taxable >= 0
      {
        StoredTaxableNotNegative(line, r, place);
      }
    } else {
      LimitReached();
    }
  }
}
