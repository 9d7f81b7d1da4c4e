/** How far rounding can move the tax of a line, and what it can never do. */
module GstLaws {
  import opened Wrappers
  import opened Decimals
  import opened Money
  import opened Gst

  /** k half-units of the 16th place: what k divisions can lose. */
  function Tiny(k: real): real {
    k * 0.00000000000000005
  }

  // ---------- The exact tax ----------

  /** The taxable value under exact division. */
  function ExactTaxable(line: TaxableLine, r: TaxRate): real
    requires r.Valid()
  {
    RateIsNotNegative(r);
    if line.mode.Inclusive? then line.amount.amount / (1.0 + CombinedRate(r)) else line.amount.amount
  }

  function ExactTax(line: TaxableLine, r: TaxRate): real
    requires r.Valid()
  {
    TaxOn(ExactTaxable(line, r), CombinedRate(r))
  }

  lemma {:induction false} SplitAmount(x: real, rate: real)
    requires rate >= 0.0
    ensures x / (1.0 + rate) + TaxOn(x / (1.0 + rate), rate) == x
  {
    Quotient(x, 1.0 + rate);
    Distribute(x / (1.0 + rate), rate);
  }

  lemma {:induction false} Distribute(q: real, rate: real)
    ensures q * (1.0 + rate) == q + TaxOn(q, rate)
  {
  }

  /** An inclusive amount is exactly its taxable value plus its tax. */
  lemma {:induction false} InclusiveSplits(line: TaxableLine, r: TaxRate)
    requires r.Valid() && line.mode.Inclusive?
    ensures ExactTaxable(line, r) + ExactTax(line, r) == line.amount.amount
  {
    RateIsNotNegative(r);
    SplitAmount(line.amount.amount, CombinedRate(r));
  }

  // ---------- Components before rounding ----------

  /** The i-th component's unrounded amount; nothing beyond the last component. */
  function AmountAt(cs: seq<Component>, i: nat): real {
    if i < |cs| then cs[i].amount.amount else 0.0
  }

  function PercentAt(cs: seq<Component>, i: nat): real {
    if i < |cs| then cs[i].rate else 0.0
  }

  /** The sum of the at most three unrounded amounts. */
  function Unrounded(cs: seq<Component>): real {
    AmountAt(cs, 0) + AmountAt(cs, 1) + AmountAt(cs, 2)
  }

  /** However the supply is split, the components' percentages add up to GST plus cess. */
  lemma {:induction false} PercentagesAddUp(r: TaxRate, taxable: real, place: Place, currency: string)
    requires r.Valid()
    ensures var cs := Components(r, taxable, place, currency);
            PercentAt(cs, 0) + PercentAt(cs, 1) + PercentAt(cs, 2) == FromRate(r.gst) + FromRate(r.cess)
  {
    RateIsNotNegative(r);
  }

  /** Each component is its share of the taxable value. */
  lemma {:induction false} AmountsAreShares(r: TaxRate, taxable: real, place: Place, currency: string, i: nat)
    requires r.Valid()
    ensures var cs := Components(r, taxable, place, currency);
            i < |cs| ==> cs[i].amount == Money(Share(taxable, cs[i].rate), currency) && cs[i].rate >= 0.0
  {
    RateIsNotNegative(r);
  }

  lemma {:induction false} ShareIsNearest(taxable: real, percent: real)
    ensures -Tiny(1.0) <= Share(taxable, percent) - TaxOn(taxable, percent) / 100.0 <= Tiny(1.0)
    ensures taxable >= 0.0 && percent >= 0.0 ==> Share(taxable, percent) >= 0.0
  {
    Round16IsNearest(TaxOn(taxable, percent) / 100.0);
  }

  lemma {:induction false} AmountIsNear(r: TaxRate, taxable: real, place: Place, currency: string, i: nat)
    requires r.Valid()
    ensures var cs := Components(r, taxable, place, currency);
            var slack := if i < |cs| then Tiny(1.0) else 0.0;
            -slack <= AmountAt(cs, i) - TaxOn(taxable, PercentAt(cs, i)) / 100.0 <= slack
    ensures taxable >= 0.0 ==> AmountAt(Components(r, taxable, place, currency), i) >= 0.0
  {
    var cs := Components(r, taxable, place, currency);
    AmountsAreShares(r, taxable, place, currency, i);
    if i < |cs| { ShareIsNearest(taxable, cs[i].rate); }
  }

  lemma {:induction false} SharesAddUp(taxable: real, p: real, q: real, t: real, rate: real)
    requires rate == (p + q + t) / 100.0
    ensures TaxOn(taxable, p) / 100.0 + TaxOn(taxable, q) / 100.0 + TaxOn(taxable, t) / 100.0 == TaxOn(taxable, rate)
  {
  }

  /** The unrounded components together are the tax on the taxable value, up to one half-unit each. */
  lemma {:induction false} AmountsAddUp(r: TaxRate, taxable: real, place: Place, currency: string)
    requires r.Valid()
    ensures var cs := Components(r, taxable, place, currency);
            -Tiny(|cs| as real) <= Unrounded(cs) - TaxOn(taxable, CombinedRate(r)) <= Tiny(|cs| as real)
  {
    var cs := Components(r, taxable, place, currency);
    AmountIsNear(r, taxable, place, currency, 0);
    AmountIsNear(r, taxable, place, currency, 1);
    AmountIsNear(r, taxable, place, currency, 2);
    PercentagesAddUp(r, taxable, place, currency);
    RateIsNotNegative(r);
    SharesAddUp(taxable, PercentAt(cs, 0), PercentAt(cs, 1), PercentAt(cs, 2), CombinedRate(r));
  }

  // ---------- The error of a line ----------

  function ComponentCount(line: TaxableLine, r: TaxRate, place: Place): nat
    requires line.amount.Valid() && r.Valid()
  {
    |LineComponents(line, r, place)|
  }

  /** What the 16-place divisions can add to the error: one half-unit per component, and one in the
    * taxable value, taxed at the combined rate. */
  function Slack(line: TaxableLine, r: TaxRate, place: Place): real
    requires line.amount.Valid() && r.Valid()
  {
    Tiny(ComponentCount(line, r, place) as real + CombinedRate(r))
  }

  lemma {:induction false} TaxableIsNear(line: TaxableLine, r: TaxRate)
    requires r.Valid() && 1.0 + CombinedRate(r) != 0.0
    ensures -Tiny(1.0) <= TaxableUnrounded(line.amount.amount, line.mode, r) - ExactTaxable(line, r) <= Tiny(1.0)
  {
    RateIsNotNegative(r);
    Round16IsNearest(line.amount.amount / (1.0 + CombinedRate(r)));
  }

  lemma {:induction false} TaxOnNear(x: real, y: real, rate: real)
    requires -Tiny(1.0) <= x - y <= Tiny(1.0) && rate >= 0.0
    ensures -Tiny(rate) <= TaxOn(x, rate) - TaxOn(y, rate) <= Tiny(rate)
  {
    ErrorTimes(x, y, Tiny(1.0), rate, TaxOn(y, rate));
  }

  /** The unrounded tax is the exact tax up to the slack. */
  lemma {:induction false} UnroundedIsNear(line: TaxableLine, r: TaxRate, place: Place)
    requires line.amount.Valid() && r.Valid()
    ensures -Slack(line, r, place) <= Unrounded(LineComponents(line, r, place)) - ExactTax(line, r)
            <= Slack(line, r, place)
  {
    RateIsNotNegative(r);
    TaxableIsNear(line, r);
    var taxable := TaxableUnrounded(line.amount.amount, line.mode, r);
    AmountsAddUp(r, taxable, place, line.amount.currency);
    TaxOnNear(taxable, ExactTaxable(line, r), CombinedRate(r));
  }

  /** One component's rounded amount, in minor units. */
  function MinorAt(cs: seq<Component>, i: nat): int
    requires Denominated(cs)
  {
    if i < |cs| then (assert cs[i] in cs; Minor(cs[i].amount, RoundHalfUp)) else 0
  }

  lemma {:induction false} TaxMinorOfThreeMinors(cs: seq<Component>)
    requires Denominated(cs) && |cs| <= 3
    ensures TaxMinor(cs) == MinorAt(cs, 0) + MinorAt(cs, 1) + MinorAt(cs, 2)
  {
    if cs != [] {
      var n := |cs| - 1;
      assert forall c <- cs[..n] :: c in cs;
      TaxMinorOfThreeMinors(cs[..n]);
      assert forall i: nat | i < n :: MinorAt(cs[..n], i) == MinorAt(cs, i);
    }
  }

  lemma {:induction false} MinorAtScaled(cs: seq<Component>, currency: string, i: nat)
    requires Denominated(cs) && MinorDigits(currency).Some? && forall c <- cs :: c.amount.currency == currency
    ensures MinorAt(cs, i) == HalfAway(Scaled(AmountAt(cs, i), currency))
  {
    if i < |cs| { assert cs[i] in cs; }
  }

  /** TaxMinor, for the at most three components a line has. */
  lemma {:induction false} TaxMinorOfThree(cs: seq<Component>, currency: string)
    requires Denominated(cs) && |cs| <= 3 && MinorDigits(currency).Some?
             && forall c <- cs :: c.amount.currency == currency
    ensures TaxMinor(cs) == HalfAway(Scaled(AmountAt(cs, 0), currency)) + HalfAway(Scaled(AmountAt(cs, 1), currency))
                            + HalfAway(Scaled(AmountAt(cs, 2), currency))
  {
    TaxMinorOfThreeMinors(cs);
    MinorAtScaled(cs, currency, 0);
    MinorAtScaled(cs, currency, 1);
    MinorAtScaled(cs, currency, 2);
  }

  lemma {:induction false} LineCurrency(line: TaxableLine, r: TaxRate, place: Place)
    requires line.amount.Valid() && r.Valid()
    ensures forall c <- LineComponents(line, r, place) :: c.amount.currency == line.amount.currency
  {
    RateIsNotNegative(r);
  }

  lemma {:induction false} RoundedSum(a: real, b: real, c: real, n: nat, currency: string)
    requires MinorDigits(currency).Some? && n <= 3
    requires (n < 3 ==> c == 0.0) && (n < 2 ==> b == 0.0) && (n < 1 ==> a == 0.0)
    ensures var rounded := HalfAway(Scaled(a, currency)) + HalfAway(Scaled(b, currency))
            + HalfAway(Scaled(c, currency));
            -(n as real) / 2.0 <= rounded as real - Scaled(a + b + c, currency) <= n as real / 2.0
  {
    HalfAwayIsNearest(Scaled(a, currency));
    HalfAwayIsNearest(Scaled(b, currency));
    HalfAwayIsNearest(Scaled(c, currency));
    assert HalfAway(0.0) == 0;
  }

  /** The tax of a line is within half a minor unit per component of the exact tax, beyond the slack
    * of the divisions. */
  lemma {:induction false} LineTaxIsClose(line: TaxableLine, r: TaxRate, place: Place)
    requires line.amount.Valid() && r.Valid()
    ensures var currency := line.amount.currency;
            Abs(LineMinors(line, r, place).tax as real - Scaled(ExactTax(line, r), currency))
            <= ComponentCount(line, r, place) as real / 2.0 + Scaled(Slack(line, r, place), currency)
  {
    var cs, currency := LineComponents(line, r, place), line.amount.currency;
    UnroundedIsNear(line, r, place);
    LineCurrency(line, r, place);
    TaxMinorOfThree(cs, currency);
    RoundedSum(AmountAt(cs, 0), AmountAt(cs, 1), AmountAt(cs, 2), |cs|, currency);
    NearScaled(LineMinors(line, r, place).tax as real, Unrounded(cs), ExactTax(line, r), |cs| as real / 2.0,
               Slack(line, r, place), currency);
  }

  lemma {:induction false} NearScaled(n: real, x: real, y: real, e: real, f: real, currency: string)
    requires MinorDigits(currency).Some? && -e <= n - Scaled(x, currency) <= e && -f <= x - y <= f
    ensures Abs(n - Scaled(y, currency)) <= e + Scaled(f, currency)
  {
  }

  lemma {:induction false} PercentOfTaxable(taxable: real, percent: real)
    ensures TaxOn(taxable, percent) / 100.0 == TaxOn(taxable, percent / 100.0)
  {
  }

  /** The unrounded amount is near the exact percentage of the exact taxable value. */
  lemma {:induction false} ComponentIsNear(line: TaxableLine, r: TaxRate, place: Place, i: nat)
    requires line.amount.Valid() && r.Valid() && i < ComponentCount(line, r, place)
    ensures var c := LineComponents(line, r, place)[i];
            -Tiny(1.0 + c.rate / 100.0) <= c.amount.amount - TaxOn(ExactTaxable(line, r), c.rate / 100.0)
            <= Tiny(1.0 + c.rate / 100.0)
  {
    RateIsNotNegative(r);
    var taxable := TaxableUnrounded(line.amount.amount, line.mode, r);
    var percent := LineComponents(line, r, place)[i].rate;
    AmountsAreShares(r, taxable, place, line.amount.currency, i);
    AmountIsNear(r, taxable, place, line.amount.currency, i);
    TaxableIsNear(line, r);
    PercentOfTaxable(taxable, percent);
    TaxOnNear(taxable, ExactTaxable(line, r), percent / 100.0);
  }

  /** Each component of a calculated line is within half a minor unit of its own percentage of the exact
    * taxable value, beyond the slack of the divisions. */
  lemma {:induction false} ComponentIsClose(rates: map<string, TaxRate>, line: TaxableLine, place: Place, r: LineResult,
                                            i: nat)
    requires line.amount.Valid() && RatesValid(rates) && IsLineResult(rates, line, place, r) && i < |r.components|
    ensures var c, currency := r.components[i], line.amount.currency;
            var exact := TaxOn(ExactTaxable(line, rates[line.hsn]), c.rate / 100.0);
            && c.amount.currency == currency
            && Abs(Scaled(c.amount.amount, currency) - Scaled(exact, currency))
               <= 0.5 + Scaled(Tiny(1.0 + c.rate / 100.0), currency)
  {
    var rate, currency := rates[line.hsn], line.amount.currency;
    var cs := LineComponents(line, rate, place);
    LineCurrency(line, rate, place);
    assert cs[i] in cs && r.components[i] == RoundComponent(cs[i]);
    ComponentIsNear(line, rate, place, i);
    var unrounded, exact := cs[i].amount.amount, TaxOn(ExactTaxable(line, rate), cs[i].rate / 100.0);
    HalfAwayIsNearest(Scaled(unrounded, currency));
    ScaledRound(cs[i].amount);
    hide LineComponents, IsLineResult, Round, RoundComponent, ExactTaxable, TaxOn, Scaled;
    NearScaled(Scaled(r.components[i].amount.amount, currency), unrounded, exact, 0.5, Tiny(1.0 + cs[i].rate / 100.0),
               currency);
  }

  lemma {:induction false} ScaledRound(m: Money)
    requires m.Valid()
    ensures Scaled(Round(m, RoundHalfUp).amount, m.currency) == HalfAway(Scaled(m.amount, m.currency)) as real
  {
  }

  /** The taxable value of an inclusive line, derived by subtraction, is within half a minor unit per
    * component and one half for the gross of the exact quotient. */
  lemma {:induction false} InclusiveTaxableIsClose(line: TaxableLine, r: TaxRate, place: Place)
    requires line.amount.Valid() && r.Valid() && line.mode.Inclusive?
    ensures var currency := line.amount.currency;
            Abs(LineMinors(line, r, place).taxable as real - Scaled(ExactTaxable(line, r), currency))
            <= (ComponentCount(line, r, place) + 1) as real / 2.0 + Scaled(Slack(line, r, place), currency)
  {
    LineTaxIsClose(line, r, place);
    InclusiveSplits(line, r);
    HalfAwayIsNearest(InMinorUnits(line.amount));
    var m := LineMinors(line, r, place);
    Difference(m.gross as real, m.tax as real, ExactTaxable(line, r), ExactTax(line, r),
               ComponentCount(line, r, place) as real / 2.0 + Scaled(Slack(line, r, place), line.amount.currency),
                   line.amount.currency);
  }

  lemma {:induction false} Difference(gross: real, tax: real, x: real, y: real, e: real, currency: string)
    requires MinorDigits(currency).Some?
    requires -0.5 <= gross - Scaled(x + y, currency) <= 0.5 && Abs(tax - Scaled(y, currency)) <= e
    ensures Abs((gross - tax) - Scaled(x, currency)) <= 0.5 + e
  {
  }

  // ---------- Within a state and between states ----------

  /** Twice the rounded half against the rounded whole. */
  lemma {:induction false} HalvesAndWhole(y: real)
    ensures 2 * HalfAway(y / 2.0) == HalfAway(y) <==> HalfAway(y) % 2 == 0
    ensures -1 <= 2 * HalfAway(y / 2.0) - HalfAway(y) <= 1
  {
    var n := HalfAway(y / 2.0);
    HalfAwayIsNearest(y / 2.0);
    HalfAwayIsNearest(y);
    assert -1.0 <= 2.0 * n as real - y <= 1.0;
  }

  function IgstUnrounded(taxable: real, r: TaxRate): real {
    Share(taxable, FromRate(r.gst))
  }

  function HalfUnrounded(taxable: real, r: TaxRate): real {
    Share(taxable, Div(FromRate(r.gst), 2.0))
  }

  /** The unrounded IGST counted in units of the 16th place. */
  function IgstUnits(taxable: real, r: TaxRate): int {
    HalfAway(TaxOn(taxable, FromRate(r.gst)) / 100.0 * 10000000000000000.0)
  }

  lemma {:induction false} HalfOfShare(t: real, g: real)
    ensures TaxOn(t, g / 2.0) == TaxOn(t, g) / 2.0
  {
  }

  /** Before the invoice rounding, the two halves of a supply within the state equal the whole of one
    * between states exactly when the whole is an even number of 16th-place units; otherwise they
    * differ by one such unit. */
  lemma {:induction false} HalvesBeforeRounding(taxable: real, r: TaxRate)
    requires r.Valid()
    ensures IgstUnrounded(taxable, r) == IgstUnits(taxable, r) as real / 10000000000000000.0
    ensures 2.0 * HalfUnrounded(taxable, r) == IgstUnrounded(taxable, r) <==> IgstUnits(taxable, r) % 2 == 0
    ensures Abs(2.0 * HalfUnrounded(taxable, r) - IgstUnrounded(taxable, r)) <= 0.0000000000000001
  {
    RateIsNotNegative(r);
    HalfOfShare(taxable, FromRate(r.gst));
    RoundedHalves(TaxOn(taxable, FromRate(r.gst)) / 100.0);
  }

  lemma {:induction false} RoundedHalves(x: real)
    ensures var units := HalfAway(x * 10000000000000000.0);
      && (2.0 * Round16(x / 2.0) == Round16(x) <==> units % 2 == 0)
      && Abs(2.0 * Round16(x / 2.0) - Round16(x)) <= 0.0000000000000001
  {
    HalvesAndWhole(x * 10000000000000000.0);
    assert x / 2.0 * 10000000000000000.0 == x * 10000000000000000.0 / 2.0;
  }

  /** A hundred rupees inclusive of 5%: the whole is an odd number of units, and its halves both round up. */
  lemma {:induction false} HalvesCanExceedTheWhole(lineRef: string, hsn: string, classification: string)
    ensures var line := TaxableLine(lineRef, hsn, Money(100.0, "INR"), Inclusive);
            var r := TaxRate(5000000000000, 0, classification);
            1.0 + CombinedRate(r) == 1.05 && r.Valid() &&
            var taxable := TaxableUnrounded(line.amount.amount, line.mode, r);
      && taxable == 95.2380952380952381
      && IgstUnrounded(taxable, r) == 4.7619047619047619
      && HalfUnrounded(taxable, r) == 2.3809523809523810
  {
    var r := TaxRate(5000000000000, 0, classification);
    RateIsNotNegative(r);
    assert FromRate(r.gst) == 5.0 && CombinedRate(r) == 0.05;
    QuotientBetween(100.0, 1.05, 95.23809523809523808, 95.23809523809523812);
    Round16To(100.0 / 1.05, 952380952380952381);
    Round16To(TaxOn(95.2380952380952381, 5.0) / 100.0, 47619047619047619);
    Round16To(TaxOn(95.2380952380952381, 2.5) / 100.0, 23809523809523810);
  }

  /** The two unrounded splits side by side: the halves, the whole and the same cess. */
  lemma {:induction false} SplitAmounts(r: TaxRate, taxable: real, unionTerritory: bool, currency: string)
    requires r.Valid() && r.gst > 0
    ensures var a := Components(r, taxable, Place(true, unionTerritory), currency);
            var b := Components(r, taxable, Place(false, unionTerritory), currency);
      && AmountAt(a, 0) == AmountAt(a, 1) == HalfUnrounded(taxable, r)
      && AmountAt(b, 0) == IgstUnrounded(taxable, r)
      && AmountAt(a, 2) == AmountAt(b, 1) && AmountAt(b, 2) == 0.0
  {
  }

  lemma {:induction false} TwiceRounded(half: real, whole: real, currency: string)
    requires MinorDigits(currency).Some? && Abs(2.0 * half - whole) <= 0.0000000000000001
    ensures -1 <= 2 * HalfAway(Scaled(half, currency)) - HalfAway(Scaled(whole, currency)) <= 1
  {
    HalfAwayIsNearest(Scaled(half, currency));
    HalfAwayIsNearest(Scaled(whole, currency));
    assert Abs(2.0 * Scaled(half, currency) - Scaled(whole, currency)) <= 0.001;
  }

  /** For the same line and rate, the tax within the state and the tax between states differ by at
    * most one minor unit, with or without cess; an inclusive line keeps its gross either way and an
    * exclusive line its taxable value. */
  lemma {:induction false} IntraAndInterState(line: TaxableLine, r: TaxRate, unionTerritory: bool)
    requires line.amount.Valid() && r.Valid()
    ensures var intra, inter := LineMinors(line, r, Place(true, unionTerritory)),
            LineMinors(line, r, Place(false, unionTerritory));
      && -1 <= intra.tax - inter.tax <= 1
      && (line.mode.Inclusive? ==> intra.gross == inter.gross && intra.taxable - inter.taxable == inter.tax - intra.tax)
      && (line.mode.Exclusive? ==> intra.taxable == inter.taxable && intra.gross - inter.gross == intra.tax - inter.tax)
  {
    RateIsNotNegative(r);
    var currency := line.amount.currency;
    var a, b := LineComponents(line, r, Place(true, unionTerritory)),
        LineComponents(line, r, Place(false, unionTerritory));
    if r.gst > 0 {
      var taxable := TaxableUnrounded(line.amount.amount, line.mode, r);
      LineCurrency(line, r, Place(true, unionTerritory));
      LineCurrency(line, r, Place(false, unionTerritory));
      TaxMinorOfThree(a, currency);
      TaxMinorOfThree(b, currency);
      SplitAmounts(r, taxable, unionTerritory, currency);
      HalvesBeforeRounding(taxable, r);
      TwiceRounded(HalfUnrounded(taxable, r), IgstUnrounded(taxable, r), currency);
      assert HalfAway(Scaled(0.0, currency)) == 0;
    } else {
      assert a == b;
    }
  }

  // ---------- The error of a document ----------

  function Sum(xs: seq<real>): real {
    if xs == [] then 0.0 else Sum(xs[..|xs| - 1]) + xs[|xs| - 1]
  }

  /** Errors add up at most to the sum of their bounds. */
  lemma {:induction false} SumsAreClose(xs: seq<real>, ys: seq<real>, bounds: seq<real>)
    requires |xs| == |ys| == |bounds| && forall i | 0 <= i < |xs| :: Abs(xs[i] - ys[i]) <= bounds[i]
    ensures Abs(Sum(xs) - Sum(ys)) <= Sum(bounds)
  {
    if xs != [] {
      var n := |xs| - 1;
      SumsAreClose(xs[..n], ys[..n], bounds[..n]);
      assert Abs(xs[n] - ys[n]) <= bounds[n];
    }
  }

  function Taxes(rs: seq<LineResult>): (xs: seq<real>)
    ensures |xs| == |rs|
  {
    seq(|rs|, i requires 0 <= i < |rs| => rs[i].totalTax.amount)
  }

  lemma {:induction false} SumTaxIsSum(rs: seq<LineResult>)
    ensures SumTax(rs) == Sum(Taxes(rs))
  {
    if rs != [] {
      SumTaxIsSum(rs[..|rs| - 1]);
      assert Taxes(rs)[..|rs| - 1] == Taxes(rs[..|rs| - 1]);
    }
  }

  function LineBound(line: TaxableLine, r: TaxRate, place: Place): real
    requires line.amount.Valid() && r.Valid()
  {
    Unscaled(ComponentCount(line, r, place) as real / 2.0, line.amount.currency) + Slack(line, r, place)
  }

  predicate Rated(rates: map<string, TaxRate>, lines: seq<TaxableLine>) {
    && RatesValid(rates) && AmountsValid(lines)
    && forall i | 0 <= i < |lines| :: lines[i] in lines && lines[i].hsn in rates
  }

  /** The exact taxes of a document's lines. */
  function ExactTaxes(rates: map<string, TaxRate>, lines: seq<TaxableLine>): (xs: seq<real>)
    requires Rated(rates, lines)
    ensures |xs| == |lines| && forall i | 0 <= i < |lines| :: xs[i] == ExactTax(lines[i], rates[lines[i].hsn])
  {
    seq(|lines|, i requires 0 <= i < |lines| => ExactTax(lines[i], rates[lines[i].hsn]))
  }

  /** Half a minor unit per component and the slack of each line, in currency units. */
  function LineBounds(rates: map<string, TaxRate>, lines: seq<TaxableLine>, place: Place): (xs: seq<real>)
    requires Rated(rates, lines)
    ensures |xs| == |lines| && forall i | 0 <= i < |lines| :: xs[i] == LineBound(lines[i], rates[lines[i].hsn], place)
  {
    seq(|lines|, i requires 0 <= i < |lines| => LineBound(lines[i], rates[lines[i].hsn], place))
  }

  lemma {:induction false} LineTaxInCurrency(rates: map<string, TaxRate>, line: TaxableLine, place: Place,
                                             result: LineResult)
    requires RatesValid(rates) && line.amount.Valid() && IsLineResult(rates, line, place, result)
    ensures Abs(result.totalTax.amount - ExactTax(line, rates[line.hsn])) <= LineBound(line, rates[line.hsn], place)
  {
    var r := rates[line.hsn];
    LineTaxIsClose(line, r, place);
    InCurrencyUnits(LineMinors(line, r, place).tax as real, ExactTax(line, r),
                    ComponentCount(line, r, place) as real / 2.0,
                    Slack(line, r, place), line.amount.currency);
  }

  lemma {:induction false} InCurrencyUnits(n: real, x: real, e: real, f: real, currency: string)
    requires MinorDigits(currency).Some? && Abs(n - Scaled(x, currency)) <= e + Scaled(f, currency)
    ensures Abs(Unscaled(n, currency) - x) <= Unscaled(e, currency) + f
  {
  }

  lemma {:induction false} ResultsHaveRates(rates: map<string, TaxRate>, lines: seq<TaxableLine>, place: Place,
                                            rs: seq<LineResult>)
    requires RatesValid(rates) && AmountsValid(lines) && AreLineResults(rates, lines, place, rs)
    ensures Rated(rates, lines) && |rs| == |lines|
  {
    forall i | 0 <= i < |lines| ensures lines[i] in lines && lines[i].hsn in rates {
      LineResultAt(rates, lines, place, rs, i);
    }
  }

  lemma {:induction false} ResultAtIsClose(rates: map<string, TaxRate>, lines: seq<TaxableLine>, place: Place,
                                           rs: seq<LineResult>, i: nat)
    requires RatesValid(rates) && AmountsValid(lines) && AreLineResults(rates, lines, place, rs) && Rated(rates, lines)
             && i < |lines|
    ensures Abs(Taxes(rs)[i] - ExactTaxes(rates, lines)[i]) <= LineBounds(rates, lines, place)[i]
  {
    LineResultAt(rates, lines, place, rs, i);
    LineTaxInCurrency(rates, lines[i], place, rs[i]);
  }

  /** A document's total tax is within half a minor unit per component of the exact tax of its
    * lines, beyond the slack of the divisions. */
  lemma {:induction false} DocumentTaxIsClose(rates: map<string, TaxRate>, lines: seq<TaxableLine>, place: Place,
                                              rs: seq<LineResult>)
    requires RatesValid(rates) && AmountsValid(lines) && AreLineResults(rates, lines, place, rs)
    ensures Rated(rates, lines)
            && Abs(SumTax(rs) - Sum(ExactTaxes(rates, lines))) <= Sum(LineBounds(rates, lines, place))
  {
    hide *;
    ResultsHaveRates(rates, lines, place, rs);
    forall i | 0 <= i < |lines| ensures Abs(Taxes(rs)[i] - ExactTaxes(rates, lines)[i])
        <= LineBounds(rates, lines, place)[i] {
      ResultAtIsClose(rates, lines, place, rs, i);
    }
    SumTaxIsSum(rs);
    SumsAreClose(Taxes(rs), ExactTaxes(rates, lines), LineBounds(rates, lines, place));
  }
}
