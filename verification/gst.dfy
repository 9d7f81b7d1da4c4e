/** internal/modules/gstindia: the tax on a document's lines.  Supplies within a state bear CGST and
  * SGST (UTGST in a Union Territory), supplies between states IGST: sections 8 and 7 of the
  * Integrated Goods and Services Tax Act, 2017. */
module Gst {
  import opened Wrappers
  import opened Decimals
  import opened Money

  datatype PricingMode = Inclusive | Exclusive

  /** A numeric(24,12) percentage, in units of its 12th place. */
  type RateColumn = int

  function FromRate(c: RateColumn): real {
    c as real / 1000000000000.0
  }

  /** A tax_rate_master row; CHECK (gst_rate >= 0), CHECK (cess_rate >= 0). */
  datatype TaxRate = TaxRate(gst: RateColumn, cess: RateColumn, classification: string) {
    predicate Valid() { gst >= 0 && cess >= 0 }
  }

  datatype ComponentType = CGST | SGST | UTGST | IGST | CESS

  datatype Component = Component(kind: ComponentType, rate: real, amount: Money)

  datatype TaxableLine = TaxableLine(lineRef: string, hsn: string, amount: Money, mode: PricingMode)

  datatype LineResult = LineResult(lineRef: string, hsn: string, mode: PricingMode, gross: Money, taxable: Money,
                                   totalTax: Money, classification: string, components: seq<Component>)

  datatype TaxError = NoLines | UnknownState | RateNotConfigured | BadCurrency

  /** Where a supply goes: whether inside the supplier's state, and whether to a Union Territory. */
  datatype Place = Place(intraState: bool, unionTerritory: bool)

  // ---------- One line ----------

  /** GST and cess together, as a fraction. */
  function CombinedRate(r: TaxRate): real {
    Div(FromRate(r.gst) + FromRate(r.cess), 100.0)
  }

  /** The taxable value before rounding. */
  function TaxableUnrounded(amount: real, mode: PricingMode, r: TaxRate): real
    requires 1.0 + CombinedRate(r) != 0.0
  {
    if mode.Inclusive? then Div(amount, 1.0 + CombinedRate(r)) else amount
  }

  /** A tax rate applied to a taxable value. */
  function TaxOn(taxable: real, rate: real): real {
    taxable * rate
  }

  /** A percentage of the taxable value, to 16 places. */
  function Share(taxable: real, percent: real): real {
    Div(TaxOn(taxable, percent), 100.0)
  }

  function NewComponent(kind: ComponentType, rate: real, taxable: real, currency: string): Component {
    Component(kind, rate, Money(Share(taxable, rate), currency))
  }

  function GstComponents(r: TaxRate, taxable: real, place: Place, currency: string): seq<Component> {
    if r.gst <= 0 then []
    else if place.intraState then
      var half := Div(FromRate(r.gst), 2.0);
      [NewComponent(CGST, half, taxable, currency),
       NewComponent(if place.unionTerritory then UTGST else SGST, half, taxable, currency)]
    else [NewComponent(IGST, FromRate(r.gst), taxable, currency)]
  }

  function CessComponents(r: TaxRate, taxable: real, currency: string): seq<Component> {
    if r.cess <= 0 then [] else [NewComponent(CESS, FromRate(r.cess), taxable, currency)]
  }

  /** The components before rounding. */
  function Components(r: TaxRate, taxable: real, place: Place, currency: string): (cs: seq<Component>)
    ensures |cs| <= 3 && forall c <- cs :: c.amount.currency == currency
  {
    GstComponents(r, taxable, place, currency) + CessComponents(r, taxable, currency)
  }

  predicate Denominated(cs: seq<Component>) {
    forall c <- cs :: c.amount.Valid()
  }

  function RoundComponent(c: Component): Component
    requires c.amount.Valid()
  {
    c.(amount := Round(c.amount, RoundHalfUp))
  }

  function RoundAll(cs: seq<Component>): (r: seq<Component>)
    requires Denominated(cs)
    ensures |r| == |cs|
    ensures forall i | 0 <= i < |cs| :: cs[i] in cs && r[i] == RoundComponent(cs[i])
  {
    seq(|cs|, i requires 0 <= i < |cs| => RoundComponent(cs[i]))
  }

  /** The sum of the separately rounded components, in minor units. */
  function TaxMinor(cs: seq<Component>): int
    requires Denominated(cs)
  {
    if cs == [] then 0 else TaxMinor(cs[..|cs| - 1]) + Minor(cs[|cs| - 1].amount, RoundHalfUp)
  }

  lemma {:induction false} RateIsNotNegative(r: TaxRate)
    requires r.Valid()
    ensures CombinedRate(r) == (FromRate(r.gst) + FromRate(r.cess)) / 100.0 >= 0.0
    ensures Div(FromRate(r.gst), 2.0) == FromRate(r.gst) / 2.0
  {
    // both quotients have at most 16 places
    assert (FromRate(r.gst) + FromRate(r.cess)) / 100.0 == ((r.gst + r.cess) * 100) as real / 10000000000000000.0;
    Round16Exact((r.gst + r.cess) * 100);
    assert FromRate(r.gst) / 2.0 == (r.gst * 5000) as real / 10000000000000000.0;
    Round16Exact(r.gst * 5000);
  }

  /** Gross, taxable and tax of a line, in minor units: the tax rounds component by component, an
    * inclusive line keeps its entered gross and an exclusive one its entered taxable value. */
  datatype Minors = Minors(gross: int, taxable: int, tax: int)

  function LineComponents(line: TaxableLine, r: TaxRate, place: Place): (cs: seq<Component>)
    requires line.amount.Valid() && r.Valid()
    ensures Denominated(cs) && |cs| <= 3
  {
    RateIsNotNegative(r);
    Components(r, TaxableUnrounded(line.amount.amount, line.mode, r), place, line.amount.currency)
  }

  function LineMinors(line: TaxableLine, r: TaxRate, place: Place): Minors
    requires line.amount.Valid() && r.Valid()
  {
    Reconciled(Minor(line.amount, RoundHalfUp), TaxMinor(LineComponents(line, r, place)), line.mode)
  }

  function Reconciled(entered: int, tax: int, mode: PricingMode): Minors {
    if mode.Inclusive? then Minors(entered, entered - tax, tax) else Minors(entered + tax, entered, tax)
  }

  lemma {:induction false} OfMinorSum(a: int, b: int, currency: string)
    requires MinorDigits(currency).Some?
    ensures Add(OfMinor(a, currency), OfMinor(b, currency)) == Ok(OfMinor(a + b, currency))
    ensures Sub(OfMinor(a, currency), OfMinor(b, currency)) == Ok(OfMinor(a - b, currency))
  {
  }

  predicate RatesValid(rates: map<string, TaxRate>) {
    forall h <- rates :: rates[h].Valid()
  }

  /** Rounds the components in place and adds them up. */
  method RoundEach(cs: seq<Component>, currency: string) returns (components: seq<Component>, lineTax: Money)
    requires Denominated(cs) && MinorDigits(currency).Some? && forall c <- cs :: c.amount.currency == currency
    ensures components == RoundAll(cs) && lineTax == OfMinor(TaxMinor(cs), currency)
  {
    components := cs;
    lineTax := Money(0.0, currency);
    ghost var tax := 0;
    for i := 0 to |components|
      invariant |components| == |cs| && tax == TaxMinor(cs[..i]) && lineTax == OfMinor(tax, currency)
      invariant forall j | 0 <= j < |cs|
          :: cs[j] in cs && components[j] == if j < i then RoundComponent(cs[j]) else cs[j]
    {
      assert cs[i] in cs && cs[..i + 1][..i] == cs[..i];
      var rounded := Round(components[i].amount, RoundHalfUp);
      components := components[i := components[i].(amount := rounded)];
      OfMinorSum(tax, Minor(cs[i].amount, RoundHalfUp), currency);
      lineTax := Add(lineTax, rounded).value;
      tax := tax + Minor(cs[i].amount, RoundHalfUp);
    }
    assert cs[..|cs|] == cs;
  }

  /** Derives the taxable value of an inclusive line, or the gross of an exclusive one. */
  method Reconcile(line: TaxableLine, taxableUnrounded: real, lineTax: Money, ghost tax: int)
      returns (gross: Money, taxable: Money)
    requires line.amount.Valid() && lineTax == OfMinor(tax, line.amount.currency)
    requires line.mode.Exclusive? ==> taxableUnrounded == line.amount.amount
    ensures var m := Reconciled(Minor(line.amount, RoundHalfUp), tax, line.mode);
            gross == OfMinor(m.gross, line.amount.currency) && taxable == OfMinor(m.taxable, line.amount.currency)
  {
    OfMinorSum(Minor(line.amount, RoundHalfUp), tax, line.amount.currency);
    if line.mode.Inclusive? {
      gross := Round(line.amount, RoundHalfUp);
      taxable := Sub(gross, lineTax).value;
    } else {
      taxable := Round(Money(taxableUnrounded, line.amount.currency), RoundHalfUp);
      gross := Add(taxable, lineTax).value;
    }
  }

  /** What a line comes to: its minor units turned back into money, with its rounded components. */
  predicate IsLineResult(rates: map<string, TaxRate>, line: TaxableLine, place: Place, r: LineResult)
    requires line.amount.Valid() && RatesValid(rates)
  {
    line.hsn in rates &&
    var rate, currency := rates[line.hsn], line.amount.currency;
    var m := LineMinors(line, rate, place);
    r == LineResult(line.lineRef, line.hsn, line.mode, OfMinor(m.gross, currency), OfMinor(m.taxable, currency),
                    OfMinor(m.tax, currency), rate.classification, RoundAll(LineComponents(line, rate, place)))
  }

  method CalculateLine(rates: map<string, TaxRate>, line: TaxableLine, place: Place)
      returns (r: Result<LineResult, TaxError>)
    requires line.amount.Valid() && RatesValid(rates)
    ensures r.Ok? <==> line.hsn in rates
    ensures r.Err? ==> r.error == RateNotConfigured
    ensures r.Ok? ==> IsLineResult(rates, line, place, r.value)
  {
    if line.hsn !in rates { return Err(RateNotConfigured); }
    var rate := rates[line.hsn];
    var currency := line.amount.currency;
    RateIsNotNegative(rate);
    var taxableUnrounded := TaxableUnrounded(line.amount.amount, line.mode, rate);
    var components := GstComponents(rate, taxableUnrounded, place, currency);
    components := components + CessComponents(rate, taxableUnrounded, currency);
    assert components == LineComponents(line, rate, place);
    ghost var tax := TaxMinor(components);
    var lineTax;
    components, lineTax := RoundEach(components, currency);
    var gross, taxable := Reconcile(line, taxableUnrounded, lineTax, tax);
    return Ok(LineResult(line.lineRef, line.hsn, line.mode, gross, taxable, lineTax, rate.classification, components));
  }

  // ---------- A document ----------

  datatype TaxInput = TaxInput(lines: seq<TaxableLine>, supplierState: string, placeState: string, currency: string)

  datatype TaxOutput = TaxOutput(lines: seq<LineResult>, totalTaxable: Money, totalTax: Money, grandTotal: Money)

  function SumGross(lines: seq<LineResult>): real {
    if lines == [] then 0.0 else SumGross(lines[..|lines| - 1]) + lines[|lines| - 1].gross.amount
  }

  function SumTaxable(lines: seq<LineResult>): real {
    if lines == [] then 0.0 else SumTaxable(lines[..|lines| - 1]) + lines[|lines| - 1].taxable.amount
  }

  function SumTax(lines: seq<LineResult>): real {
    if lines == [] then 0.0 else SumTax(lines[..|lines| - 1]) + lines[|lines| - 1].totalTax.amount
  }

  /** The entered amounts, each rounded to its currency. */
  function SumEntered(lines: seq<TaxableLine>): real
    requires forall l <- lines :: l.amount.Valid()
  {
    if lines == [] then 0.0
    else SumEntered(lines[..|lines| - 1]) + Round(lines[|lines| - 1].amount, RoundHalfUp).amount
  }

  lemma {:induction false} LineReconciles(rates: map<string, TaxRate>, line: TaxableLine, place: Place, r: LineResult)
    requires line.amount.Valid() && RatesValid(rates) && IsLineResult(rates, line, place, r)
    ensures r.gross.amount == r.taxable.amount + r.totalTax.amount
    ensures line.mode.Inclusive? ==> r.gross == Round(line.amount, RoundHalfUp)
    ensures line.mode.Exclusive? ==> r.taxable == Round(line.amount, RoundHalfUp)
  {
    var m := LineMinors(line, rates[line.hsn], place);
    OfMinorSum(m.taxable, m.tax, line.amount.currency);
  }

  predicate AmountsValid(lines: seq<TaxableLine>) {
    forall l <- lines :: l.amount.Valid()
  }

  /** Line by line, the results of a document. */
  predicate AreLineResults(rates: map<string, TaxRate>, lines: seq<TaxableLine>, place: Place, rs: seq<LineResult>)
    requires AmountsValid(lines) && RatesValid(rates)
  {
    |rs| == |lines| &&
    (lines == [] ||
     (assert lines[|lines| - 1] in lines;
      && AreLineResults(rates, lines[..|lines| - 1], place, rs[..|rs| - 1])
      && IsLineResult(rates, lines[|lines| - 1], place, rs[|rs| - 1])))
  }

  lemma {:induction false} LineResultAt(rates: map<string, TaxRate>, lines: seq<TaxableLine>, place: Place,
                                        rs: seq<LineResult>, i: nat)
    requires AmountsValid(lines) && RatesValid(rates) && AreLineResults(rates, lines, place, rs) && i < |lines|
    ensures lines[i] in lines && IsLineResult(rates, lines[i], place, rs[i])
  {
    if i < |lines| - 1 { LineResultAt(rates, lines[..|lines| - 1], place, rs[..|rs| - 1], i); }
  }

  /** The line grosses add up to the line taxables and taxes; what was entered is the gross if every line
    * was entered with its tax included, and the taxable value if every line was entered without. */
  lemma {:induction false} LinesReconcile(rates: map<string, TaxRate>, lines: seq<TaxableLine>, place: Place,
                                          rs: seq<LineResult>)
    requires AmountsValid(lines) && RatesValid(rates) && AreLineResults(rates, lines, place, rs)
    ensures SumGross(rs) == SumTaxable(rs) + SumTax(rs)
    ensures (forall l <- lines :: l.mode.Inclusive?) ==> SumGross(rs) == SumEntered(lines)
    ensures (forall l <- lines :: l.mode.Exclusive?) ==> SumTaxable(rs) == SumEntered(lines)
  {
    hide IsLineResult, Round;
    if lines != [] {
      var n := |lines| - 1;
      assert lines[n] in lines && forall l <- lines[..n] :: l in lines;
      LinesReconcile(rates, lines[..n], place, rs[..n]);
      LineReconciles(rates, lines[n], place, rs[n]);
    }
  }

  /** The kinds of tax on a line: within the supplier's state central and state tax (Union Territory tax
    * in such a territory), between states integrated tax, and the cess besides. */
  function KindsOf(rate: TaxRate, withinState: bool, unionTerritory: bool): seq<ComponentType> {
    (if rate.gst <= 0 then [] else if !withinState then [IGST] else [CGST, if unionTerritory then UTGST else SGST])
    + (if rate.cess > 0 then [CESS] else [])
  }

  /** The percentage of one kind of tax, in units of a rate's 12th place: half the GST rate for either half
    * of it. */
  function PercentOf(rate: TaxRate, kind: ComponentType): real {
    match kind
    case CESS => rate.cess as real / 1000000000000.0
    case IGST => rate.gst as real / 1000000000000.0
    case _ => rate.gst as real / 2000000000000.0
  }

  predicate LeviedAs(rate: TaxRate, withinState: bool, unionTerritory: bool, cs: seq<Component>) {
    var kinds := KindsOf(rate, withinState, unionTerritory);
    |cs| == |kinds| && forall i | 0 <= i < |cs| :: cs[i].kind == kinds[i] && cs[i].rate == PercentOf(rate, kinds[i])
  }

  lemma {:induction false} ComponentsLevied(r: TaxRate, taxable: real, place: Place, currency: string)
    requires r.Valid()
    ensures LeviedAs(r, place.intraState, place.unionTerritory, Components(r, taxable, place, currency))
  {
    RateIsNotNegative(r);
    assert FromRate(r.gst) / 2.0 == r.gst as real / 2000000000000.0;
    hide Share, Div;
  }

  lemma {:induction false} RoundingKeepsLevy(rate: TaxRate, withinState: bool, unionTerritory: bool, cs: seq<Component>)
    requires Denominated(cs) && LeviedAs(rate, withinState, unionTerritory, cs)
    ensures LeviedAs(rate, withinState, unionTerritory, RoundAll(cs))
  {
    assert forall i | 0 <= i < |cs| :: RoundAll(cs)[i] == RoundComponent(cs[i]) && cs[i].amount.Valid();
    hide RoundAll, Round, KindsOf, PercentOf;
  }

  lemma {:induction false} LineLevied(rates: map<string, TaxRate>, line: TaxableLine, place: Place, r: LineResult)
    requires line.amount.Valid() && RatesValid(rates) && IsLineResult(rates, line, place, r)
    ensures LeviedAs(rates[line.hsn], place.intraState, place.unionTerritory, r.components)
    ensures r.lineRef == line.lineRef && r.hsn == line.hsn && r.classification == rates[line.hsn].classification
  {
    var rate := rates[line.hsn];
    RateIsNotNegative(rate);
    var taxable := TaxableUnrounded(line.amount.amount, line.mode, rate);
    ComponentsLevied(rate, taxable, place, line.amount.currency);
    assert LineComponents(line, rate, place) == Components(rate, taxable, place, line.amount.currency);
    assert r.components == RoundAll(LineComponents(line, rate, place));
    hide *;
    RoundingKeepsLevy(rate, place.intraState, place.unionTerritory, LineComponents(line, rate, place));
  }

  function PlaceOf(states: map<string, bool>, supplierState: string, placeState: string): Place
    requires placeState in states
  {
    Place(supplierState == placeState, states[placeState])
  }

  /** The loop over the lines so far: the results and both running totals. */
  ghost predicate Accumulated(rates: map<string, TaxRate>, lines: seq<TaxableLine>, place: Place,
                              rs: seq<LineResult>, taxable: real, tax: real)
    requires RatesValid(rates)
  {
    && AmountsValid(lines) && AreLineResults(rates, lines, place, rs)
    && taxable == SumTaxable(rs) && tax == SumTax(rs)
  }

  lemma {:induction false} AccumulateLine(rates: map<string, TaxRate>, lines: seq<TaxableLine>, place: Place, i: nat,
                       rs: seq<LineResult>, taxable: real, tax: real, r: LineResult)
    requires AmountsValid(lines) && RatesValid(rates) && i < |lines|
             && Accumulated(rates, lines[..i], place, rs, taxable, tax)
    requires lines[i].amount.Valid() && IsLineResult(rates, lines[i], place, r)
    ensures Accumulated(rates, lines[..i + 1], place, rs + [r], taxable + r.taxable.amount, tax + r.totalTax.amount)
  {
    assert forall l <- lines[..i + 1] :: l in lines;
    assert (rs + [r])[..i] == rs && lines[..i + 1][..i] == lines[..i];
  }

  /** The loop over the lines, accumulating both totals. */
  method CalculateLines(rates: map<string, TaxRate>, lines: seq<TaxableLine>, place: Place)
    returns (r: Result<(seq<LineResult>, real, real), TaxError>)
    requires RatesValid(rates) && AmountsValid(lines)
    ensures r.Ok? <==> forall l <- lines :: l.hsn in rates
    ensures r.Err? ==> r.error == RateNotConfigured
    ensures r.Ok? ==>
      && AreLineResults(rates, lines, place, r.value.0)
      && r.value.1 == SumTaxable(r.value.0) && r.value.2 == SumTax(r.value.0)
  {
    hide IsLineResult;
    var results: seq<LineResult> := [];
    var totalTaxable, totalTax := 0.0, 0.0;
    for i := 0 to |lines|
      invariant Accumulated(rates, lines[..i], place, results, totalTaxable, totalTax)
      invariant forall j | 0 <= j < i :: lines[j].hsn in rates
    {
      assert lines[i] in lines;
      var lr := CalculateLine(rates, lines[i], place);
      if lr.Err? { return Err(lr.error); }
      AccumulateLine(rates, lines, place, i, results, totalTaxable, totalTax, lr.value);
      results := results + [lr.value];
      totalTaxable := totalTaxable + lr.value.taxable.amount;
      totalTax := totalTax + lr.value.totalTax.amount;
    }
    assert lines[..|lines|] == lines;
    return Ok((results, totalTaxable, totalTax));
  }

  /** Calculate.  `states` says of each known state code whether it is a Union Territory; `rates` is
    * the rate row that covers the document date for each HSN/SAC code. */
  method Calculate(rates: map<string, TaxRate>, states: map<string, bool>, doc: TaxInput)
      returns (r: Result<TaxOutput, TaxError>)
    requires RatesValid(rates) && AmountsValid(doc.lines)
    ensures r.Ok? <==> doc.lines != [] && doc.placeState in states && (forall l <- doc.lines :: l.hsn in rates)
                       && MinorDigits(doc.currency).Some?
    ensures r.Err? ==> r.error == if doc.lines == [] then NoLines else if doc.placeState !in states then UnknownState
                                  else if exists l <- doc.lines :: l.hsn !in rates then RateNotConfigured
                                  else BadCurrency
    ensures r.Ok? ==>
      var place := PlaceOf(states, doc.supplierState, doc.placeState);
      && AreLineResults(rates, doc.lines, place, r.value.lines)
      && r.value.grandTotal.amount == SumGross(r.value.lines)
      && r.value.grandTotal.amount == r.value.totalTaxable.amount + r.value.totalTax.amount
      && r.value.totalTaxable.amount == SumTaxable(r.value.lines) && r.value.totalTax.amount == SumTax(r.value.lines)
      && ((forall l <- doc.lines :: l.mode.Inclusive?) ==> r.value.grandTotal.amount == SumEntered(doc.lines))
      && ((forall l <- doc.lines :: l.mode.Exclusive?) ==> r.value.totalTaxable.amount == SumEntered(doc.lines))
    ensures r.Ok? ==>
      && |r.value.lines| == |doc.lines|
      && forall i | 0 <= i < |doc.lines| :: doc.lines[i] in doc.lines
           && LeviedAs(rates[doc.lines[i].hsn], doc.supplierState == doc.placeState, states[doc.placeState],
                       r.value.lines[i].components)
           && (r.value.lines[i].lineRef, r.value.lines[i].hsn) == (doc.lines[i].lineRef, doc.lines[i].hsn)
           && r.value.lines[i].classification == rates[doc.lines[i].hsn].classification
  {
    if doc.lines == [] { return Err(NoLines); }
    if doc.placeState !in states { return Err(UnknownState); }
    var place := PlaceOf(states, doc.supplierState, doc.placeState);
    var computed := CalculateLines(rates, doc.lines, place);
    if computed.Err? { return Err(computed.error); }
    var (results, totalTaxable, totalTax) := computed.value;
    LinesReconcile(rates, doc.lines, place, results);
    forall i | 0 <= i < |doc.lines|
      ensures LeviedAs(rates[doc.lines[i].hsn], place.intraState, place.unionTerritory, results[i].components)
      ensures (results[i].lineRef, results[i].hsn) == (doc.lines[i].lineRef, doc.lines[i].hsn)
      ensures results[i].classification == rates[doc.lines[i].hsn].classification
    {
      LineResultAt(rates, doc.lines, place, results, i);
      LineLevied(rates, doc.lines[i], place, results[i]);
    }
    var taxable := New(totalTaxable, doc.currency);
    if taxable.Err? { return Err(BadCurrency); }
    var tax := New(totalTax, doc.currency);
    var grand := Add(taxable.value, tax.value);
    return Ok(TaxOutput(results, taxable.value, tax.value, grand.value));
  }
}
