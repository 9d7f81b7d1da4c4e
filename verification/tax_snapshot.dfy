/** internal/modules/taxation keeps a calculated document as rows; the e-Way Bill and the e-Invoice
  * rebuild their totals and rates from those rows. */
module TaxSnapshot {
  import opened Wrappers
  import opened Decimals
  import opened Money
  import opened Gst
  import opened GstLaws

  /** A tax_components row. */
  datatype ComponentRow = ComponentRow(kind: ComponentType, rate: RateColumn, amount: Column)

  /** A tax_lines row with its components. */
  datatype LineRow = LineRow(lineRef: string, taxable: Column, totalTax: Column, components: seq<ComponentRow>)

  /** A tax_documents row with its lines. */
  datatype DocumentRow = DocumentRow(totalTaxable: Column, totalTax: Column, lines: seq<LineRow>)

  /** What a numeric(24,12) column holds after being given x. */
  function ToRate(x: real): RateColumn {
    HalfAway(x * 1000000000000.0)
  }

  function StoreComponent(c: Component): ComponentRow {
    ComponentRow(c.kind, ToRate(c.rate), ToColumn(c.amount.amount))
  }

  function StoreComponents(cs: seq<Component>): (rows: seq<ComponentRow>)
    ensures |rows| == |cs|
  {
    if cs == [] then [] else StoreComponents(cs[..|cs| - 1]) + [StoreComponent(cs[|cs| - 1])]
  }

  function StoreLine(l: LineResult): LineRow {
    LineRow(l.lineRef, ToColumn(l.taxable.amount), ToColumn(l.totalTax.amount), StoreComponents(l.components))
  }

  function StoreLines(ls: seq<LineResult>): (rows: seq<LineRow>)
    ensures |rows| == |ls|
  {
    if ls == [] then [] else StoreLines(ls[..|ls| - 1]) + [StoreLine(ls[|ls| - 1])]
  }

  /** The snapshot of a calculated document. */
  function Store(out: TaxOutput): DocumentRow {
    DocumentRow(ToColumn(out.totalTaxable.amount), ToColumn(out.totalTax.amount), StoreLines(out.lines))
  }

  // ---------- Rebuilding from the rows ----------

  /** The four figures an e-Way Bill keeps apart. */
  datatype Split = Split(cgst: int, sgst: int, igst: int, cess: int) {
    function Plus(s: Split): Split {
      Split(cgst + s.cgst, sgst + s.sgst, igst + s.igst, cess + s.cess)
    }

    function Sum(): int { cgst + sgst + igst + cess }

    /** The GST part, without cess. */
    function Gst(): int { cgst + sgst + igst }
  }

  const NOTHING := Split(0, 0, 0, 0)

  datatype Figure = Amount | Rate

  function FigureOf(row: ComponentRow, f: Figure): int {
    if f.Amount? then row.amount else row.rate
  }

  /** UTGST is filed as SGST. */
  function Heading(kind: ComponentType): ComponentType {
    if kind == UTGST then SGST else kind
  }

  function FigureUnder(row: ComponentRow, f: Figure, h: ComponentType): int {
    if Heading(row.kind) == h then FigureOf(row, f) else 0
  }

  function SumUnder(cs: seq<ComponentRow>, f: Figure, h: ComponentType): int
    decreases |cs|
  {
    if cs == [] then 0 else SumUnder(cs[..|cs| - 1], f, h) + FigureUnder(cs[|cs| - 1], f, h)
  }

  /** The components' amounts, or their rates, each added under its heading. */
  function SplitBy(cs: seq<ComponentRow>, f: Figure): Split {
    Split(SumUnder(cs, f, CGST), SumUnder(cs, f, SGST), SumUnder(cs, f, IGST), SumUnder(cs, f, CESS))
  }

  /** One component added under its heading. */
  function Added(s: Split, row: ComponentRow, f: Figure): Split {
    match Heading(row.kind)
    case CGST => s.(cgst := s.cgst + FigureOf(row, f))
    case SGST => s.(sgst := s.sgst + FigureOf(row, f))
    case IGST => s.(igst := s.igst + FigureOf(row, f))
    case _ => s.(cess := s.cess + FigureOf(row, f))
  }

  lemma {:induction false} SplitStep(cs: seq<ComponentRow>, f: Figure, k: nat)
    requires k < |cs|
    ensures SplitBy(cs[..k + 1], f) == Added(SplitBy(cs[..k], f), cs[k], f)
  {
    assert cs[..k + 1][..k] == cs[..k];
  }

  function Totals(ls: seq<LineRow>): Split {
    if ls == [] then NOTHING else Totals(ls[..|ls| - 1]).Plus(SplitBy(ls[|ls| - 1].components, Amount))
  }

  /** The rates an e-Way Bill files under each line reference. */
  function RatesByRef(ls: seq<LineRow>): map<string, Split> {
    if ls == [] then map[]
    else RatesByRef(ls[..|ls| - 1])[ls[|ls| - 1].lineRef := SplitBy(ls[|ls| - 1].components, Rate)]
  }

  lemma {:induction false} PlusAdded(s: Split, t: Split, row: ComponentRow, f: Figure)
    ensures s.Plus(Added(t, row, f)) == Added(s.Plus(t), row, f)
  {
  }

  /** The inner loop of buildCanonicalFromLiveData, over one line's components. */
  method AddLine(cs: seq<ComponentRow>, before: Split) returns (totals: Split, rates: Split)
    ensures totals == before.Plus(SplitBy(cs, Amount)) && rates == SplitBy(cs, Rate)
  {
    totals, rates := before, NOTHING;
    for j := 0 to |cs|
      invariant totals == before.Plus(SplitBy(cs[..j], Amount)) && rates == SplitBy(cs[..j], Rate)
    {
      SplitStep(cs, Amount, j);
      SplitStep(cs, Rate, j);
      PlusAdded(before, SplitBy(cs[..j], Amount), cs[j], Amount);
      totals := Added(totals, cs[j], Amount);
      rates := Added(rates, cs[j], Rate);
    }
    assert cs[..|cs|] == cs;
  }

  /** Its outer loop, over the lines. */
  method SplitForEWayBill(ls: seq<LineRow>) returns (totals: Split, rates: map<string, Split>)
    ensures totals == Totals(ls) && rates == RatesByRef(ls)
  {
    totals, rates := NOTHING, map[];
    for i := 0 to |ls|
      invariant totals == Totals(ls[..i]) && rates == RatesByRef(ls[..i])
    {
      assert ls[..i + 1][..i] == ls[..i];
      var lineRates;
      totals, lineRates := AddLine(ls[i].components, totals);
      rates := rates[ls[i].lineRef := lineRates];
    }
    assert ls[..|ls|] == ls;
  }

  /** The loop of buildIRNRequest over a line's components: every rate but the cess. */
  method RateForEInvoice(cs: seq<ComponentRow>) returns (gstRate: RateColumn)
    ensures gstRate == SplitBy(cs, Rate).Gst()
  {
    gstRate := 0;
    for j := 0 to |cs|
      invariant gstRate == SplitBy(cs[..j], Rate).Gst()
    {
      SplitStep(cs, Rate, j);
      if cs[j].kind != CESS { gstRate := gstRate + cs[j].rate; }
    }
    assert cs[..|cs|] == cs;
  }

  // ---------- Amounts are kept whole ----------

  /** Millionths in one minor unit. */
  function PerMinor(currency: string): int
    requires MinorDigits(currency).Some?
  {
    var d := MinorDigits(currency).value;
    if d == 0 then 1000000 else if d == 2 then 10000 else 1000
  }

  /** A rounded amount is stored without loss, in every registered currency. */
  lemma {:induction false} StoredExactly(n: int, currency: string)
    requires MinorDigits(currency).Some?
    ensures ToColumn(OfMinor(n, currency).amount) == n * PerMinor(currency)
    ensures FromColumn(n * PerMinor(currency)) == OfMinor(n, currency).amount
  {
    HalfAwayOfInteger(n * PerMinor(currency));
  }

  lemma {:induction false} ComponentKept(c: Component)
    requires c.amount.Valid()
    ensures StoreComponent(RoundComponent(c)).amount == Minor(c.amount, RoundHalfUp) * PerMinor(c.amount.currency)
  {
    StoredExactly(Minor(c.amount, RoundHalfUp), c.amount.currency);
  }

  lemma {:induction false} PlusSum(s: Split, t: Split)
    ensures s.Plus(t).Sum() == s.Sum() + t.Sum()
  {
  }

  lemma {:induction false} AppendAmounts(rows: seq<ComponentRow>, row: ComponentRow)
    ensures SplitBy(rows + [row], Amount).Sum() == SplitBy(rows, Amount).Sum() + row.amount
  {
    var all := rows + [row];
    assert all[..|rows|] == rows && all[..|rows| + 1] == all;
    SplitStep(all, Amount, |rows|);
  }

  lemma {:induction false} StoreRounded(cs: seq<Component>)
    requires Denominated(cs) && cs != []
    ensures var n := |cs| - 1;
      && Denominated(cs[..n]) && cs[n].amount.Valid()
      && StoreComponents(RoundAll(cs)) == StoreComponents(RoundAll(cs[..n])) + [StoreComponent(RoundComponent(cs[n]))]
  {
    var n := |cs| - 1;
    assert cs[n] in cs && forall c <- cs[..n] :: c in cs;
    assert RoundAll(cs)[..n] == RoundAll(cs[..n]);
  }

  lemma {:induction false} ComponentsKept(cs: seq<Component>, currency: string)
    requires Denominated(cs) && MinorDigits(currency).Some? && forall c <- cs :: c.amount.currency == currency
    ensures SplitBy(StoreComponents(RoundAll(cs)), Amount).Sum() == TaxMinor(cs) * PerMinor(currency)
  {
    if cs != [] {
      var n := |cs| - 1;
      assert cs[n] in cs && forall c <- cs[..n] :: c in cs;
      ComponentsKept(cs[..n], currency);
      StoreRounded(cs);
      AppendAmounts(StoreComponents(RoundAll(cs[..n])), StoreComponent(RoundComponent(cs[n])));
      ComponentKept(cs[n]);
      Distributes(TaxMinor(cs[..n]), Minor(cs[n].amount, RoundHalfUp), PerMinor(currency));
    }
  }

  lemma {:induction false} Distributes(a: int, b: int, k: int)
    ensures (a + b) * k == a * k + b * k
  {
  }

  /** The components of a line add up to its tax, in the rows as in the calculation. */
  lemma {:induction false} LineKept(rates: map<string, TaxRate>, line: TaxableLine, place: Place, r: LineResult)
    requires RatesValid(rates) && line.amount.Valid() && IsLineResult(rates, line, place, r)
    ensures LineIsKept(r)
  {
    var rate, currency := rates[line.hsn], line.amount.currency;
    LineCurrency(line, rate, place);
    ComponentsKept(LineComponents(line, rate, place), currency);
    StoredExactly(LineMinors(line, rate, place).tax, currency);
    StoredExactly(LineMinors(line, rate, place).taxable, currency);
  }

  function SumLineTax(ls: seq<LineRow>): int {
    if ls == [] then 0 else SumLineTax(ls[..|ls| - 1]) + ls[|ls| - 1].totalTax
  }

  function SumLineTaxable(ls: seq<LineRow>): int {
    if ls == [] then 0 else SumLineTaxable(ls[..|ls| - 1]) + ls[|ls| - 1].taxable
  }

  /** The rows' components add up to their taxes, and their columns to the given sums. */
  predicate RowsAddUp(rows: seq<LineRow>, tax: real, taxable: real) {
    && Totals(rows).Sum() == SumLineTax(rows)
    && FromColumn(SumLineTax(rows)) == tax
    && FromColumn(SumLineTaxable(rows)) == taxable
  }

  lemma {:induction false} AppendTaxColumn(rows: seq<LineRow>, tax: real, row: LineRow)
    requires FromColumn(SumLineTax(rows)) == tax
    ensures FromColumn(SumLineTax(rows + [row])) == tax + FromColumn(row.totalTax)
  {
    AppendLine(rows, row);
    ColumnsAddUp(SumLineTax(rows + [row]), SumLineTax(rows), row.totalTax, tax);
  }

  lemma {:induction false} AppendTaxableColumn(rows: seq<LineRow>, taxable: real, row: LineRow)
    requires FromColumn(SumLineTaxable(rows)) == taxable
    ensures FromColumn(SumLineTaxable(rows + [row])) == taxable + FromColumn(row.taxable)
  {
    AppendLine(rows, row);
    ColumnsAddUp(SumLineTaxable(rows + [row]), SumLineTaxable(rows), row.taxable, taxable);
  }

  lemma {:induction false} AppendTotals(rows: seq<LineRow>, row: LineRow)
    requires Totals(rows).Sum() == SumLineTax(rows) && SplitBy(row.components, Amount).Sum() == row.totalTax
    ensures Totals(rows + [row]).Sum() == SumLineTax(rows + [row])
  {
    AppendLine(rows, row);
  }

  lemma {:induction false} AppendAddsUp(rows: seq<LineRow>, tax: real, taxable: real, row: LineRow)
    requires RowsAddUp(rows, tax, taxable) && SplitBy(row.components, Amount).Sum() == row.totalTax
    ensures RowsAddUp(rows + [row], tax + FromColumn(row.totalTax), taxable + FromColumn(row.taxable))
  {
    AppendTotals(rows, row);
    AppendTaxColumn(rows, tax, row);
    AppendTaxableColumn(rows, taxable, row);
  }

  lemma {:induction false} ColumnsAddUp(all: Column, a: Column, b: Column, x: real)
    requires all == a + b && FromColumn(a) == x
    ensures FromColumn(all) == x + FromColumn(b)
  {
  }

  predicate LineIsKept(r: LineResult) {
    var row := StoreLine(r);
    && SplitBy(row.components, Amount).Sum() == row.totalTax
    && FromColumn(row.totalTax) == r.totalTax.amount
    && FromColumn(row.taxable) == r.taxable.amount
  }

  lemma {:induction false} LinesKept(rates: map<string, TaxRate>, lines: seq<TaxableLine>, place: Place,
                                     rs: seq<LineResult>)
    requires RatesValid(rates) && AmountsValid(lines) && AreLineResults(rates, lines, place, rs)
    ensures RowsAddUp(StoreLines(rs), SumTax(rs), SumTaxable(rs))
  {
    if lines != [] {
      var n := |lines| - 1;
      assert lines[n] in lines && forall l <- lines[..n] :: l in lines;
      LinesKept(rates, lines[..n], place, rs[..n]);
      LineKept(rates, lines[n], place, rs[n]);
      KeptStep(rs);
    }
  }

  lemma {:induction false} KeptStep(rs: seq<LineResult>)
    requires rs != [] && LineIsKept(rs[|rs| - 1])
    requires var front := rs[..|rs| - 1]; RowsAddUp(StoreLines(front), SumTax(front), SumTaxable(front))
    ensures RowsAddUp(StoreLines(rs), SumTax(rs), SumTaxable(rs))
  {
    hide ToColumn, FromColumn, SplitBy, RowsAddUp, StoreComponents;
    var front, last := rs[..|rs| - 1], rs[|rs| - 1];
    AppendAddsUp(StoreLines(front), SumTax(front), SumTaxable(front), StoreLine(last));
  }

  lemma {:induction false} AppendLine(ls: seq<LineRow>, l: LineRow)
    ensures Totals(ls + [l]).Sum() == Totals(ls).Sum() + SplitBy(l.components, Amount).Sum()
    ensures SumLineTax(ls + [l]) == SumLineTax(ls) + l.totalTax
    ensures SumLineTaxable(ls + [l]) == SumLineTaxable(ls) + l.taxable
  {
    var all := ls + [l];
    assert all[..|all| - 1] == ls && all[|all| - 1] == l;
    PlusSum(Totals(ls), SplitBy(l.components, Amount));
  }

  /** What Calculate promises of a document it accepts. */
  predicate IsCalculated(rates: map<string, TaxRate>, lines: seq<TaxableLine>, place: Place, out: TaxOutput) {
    && RatesValid(rates) && AmountsValid(lines)
    && AreLineResults(rates, lines, place, out.lines)
    && out.totalTaxable.amount == SumTaxable(out.lines) && out.totalTax.amount == SumTax(out.lines)
    && out.grandTotal.amount == out.totalTaxable.amount + out.totalTax.amount
  }

  /** No tax is lost on the way to the portals: the e-Way Bill's four totals add up to the stored
    * document tax, the e-Invoice's line taxes too, and what is read back is the calculated tax and
    * grand total, unrounded. */
  lemma {:induction false} TaxIsKept(rates: map<string, TaxRate>, lines: seq<TaxableLine>, place: Place, out: TaxOutput)
    requires IsCalculated(rates, lines, place, out)
    ensures var doc := Store(out);
      && Totals(doc.lines).Sum() == doc.totalTax == SumLineTax(doc.lines)
      && doc.totalTaxable == SumLineTaxable(doc.lines)
      && FromColumn(doc.totalTax) == out.totalTax.amount
      && FromColumn(doc.totalTaxable) + FromColumn(doc.totalTax) == out.grandTotal.amount
  {
    LinesKept(rates, lines, place, out.lines);
    ColumnRoundTrip(SumLineTax(StoreLines(out.lines)));
    ColumnRoundTrip(SumLineTaxable(StoreLines(out.lines)));
  }

  // ---------- Headings and rates ----------

  function FigureAt(rows: seq<ComponentRow>, f: Figure, h: ComponentType, i: nat): int {
    if i < |rows| then FigureUnder(rows[i], f, h) else 0
  }

  lemma {:induction false} SumOfThree(rows: seq<ComponentRow>, f: Figure, h: ComponentType)
    requires |rows| <= 3
    ensures SumUnder(rows, f, h) == FigureAt(rows, f, h, 0) + FigureAt(rows, f, h, 1) + FigureAt(rows, f, h, 2)
    decreases |rows|
  {
    if rows != [] {
      var front := rows[..|rows| - 1];
      SumOfThree(front, f, h);
      assert forall i: nat | i < |front| :: FigureAt(front, f, h, i) == FigureAt(rows, f, h, i);
    }
  }

  lemma {:induction false} StoredAt(cs: seq<Component>, i: nat)
    requires i < |cs|
    ensures StoreComponents(cs)[i] == StoreComponent(cs[i])
  {
    if i < |cs| - 1 { StoredAt(cs[..|cs| - 1], i); }
  }

  lemma {:induction false} StoredRowAt(cs: seq<Component>, i: nat)
    requires Denominated(cs) && i < |cs|
    ensures cs[i] in cs
    ensures StoreComponents(RoundAll(cs))[i].kind == cs[i].kind
    ensures StoreComponents(RoundAll(cs))[i].rate == ToRate(cs[i].rate)
  {
    StoredAt(RoundAll(cs), i);
  }

  lemma {:induction false} RateRoundTrip(g: RateColumn)
    ensures ToRate(FromRate(g)) == g
  {
    HalfAwayOfInteger(g);
  }

  /** Half a stored rate needs a 13th place when the rate is odd in its 12th; storing rounds it up. */
  lemma {:induction false} StoredHalf(g: RateColumn)
    requires g >= 0
    ensures ToRate(FromRate(g) / 2.0) == (g + 1) / 2
  {
    assert FromRate(g) / 2.0 * 1000000000000.0 == g as real / 2.0;
    HalfAwayIsNearest(g as real / 2.0);
  }

  /** The rates of a line as stored, under their headings. */
  function StoredRates(r: TaxRate, place: Place): Split {
    Split(RateOf(r, place, CGST), RateOf(r, place, SGST), RateOf(r, place, IGST), RateOf(r, place, CESS))
  }

  /** A component's stored rate, if it falls under the heading. */
  function RateUnder(cs: seq<Component>, h: ComponentType, i: nat): RateColumn {
    if i < |cs| && Heading(cs[i].kind) == h then ToRate(cs[i].rate) else 0
  }

  lemma {:induction false} StoredRateSum(cs: seq<Component>, h: ComponentType)
    requires Denominated(cs) && |cs| <= 3
    ensures SumUnder(StoreComponents(RoundAll(cs)), Rate, h)
            == RateUnder(cs, h, 0) + RateUnder(cs, h, 1) + RateUnder(cs, h, 2)
  {
    forall i: nat | i < |cs| ensures FigureAt(StoreComponents(RoundAll(cs)), Rate, h, i) == RateUnder(cs, h, i) {
      StoredRowAt(cs, i);
    }
    SumOfThree(StoreComponents(RoundAll(cs)), Rate, h);
  }

  /** One heading of a line's rates. */
  lemma {:induction false} ComponentRateUnder(r: TaxRate, taxable: real, place: Place, currency: string,
                                              h: ComponentType)
    requires r.Valid() && h != UTGST
    ensures var cs := Components(r, taxable, place, currency);
            RateUnder(cs, h, 0) + RateUnder(cs, h, 1) + RateUnder(cs, h, 2) == RateOf(r, place, h)
  {
    RateIsNotNegative(r);
    RateRoundTrip(r.gst);
    RateRoundTrip(r.cess);
    StoredHalf(r.gst);
  }

  lemma {:induction false} StoredComponentRates(r: TaxRate, taxable: real, place: Place, currency: string)
    requires r.Valid() && MinorDigits(currency).Some?
    ensures Denominated(Components(r, taxable, place, currency))
    ensures SplitBy(StoreComponents(RoundAll(Components(r, taxable, place, currency))), Rate) == StoredRates(r, place)
  {
    var cs := Components(r, taxable, place, currency);
    assert Denominated(cs);
    StoredRateUnder(r, taxable, place, currency, CGST);
    StoredRateUnder(r, taxable, place, currency, SGST);
    StoredRateUnder(r, taxable, place, currency, IGST);
    StoredRateUnder(r, taxable, place, currency, CESS);
  }

  /** The rate stored under one heading. */
  function RateOf(r: TaxRate, place: Place, h: ComponentType): RateColumn {
    if h == CESS then r.cess else if h == IGST then (if place.intraState then 0 else r.gst)
    else if place.intraState then (r.gst + 1) / 2 else 0
  }

  lemma {:induction false} StoredRateUnder(r: TaxRate, taxable: real, place: Place, currency: string, h: ComponentType)
    requires r.Valid() && h != UTGST && Denominated(Components(r, taxable, place, currency))
    ensures SumUnder(StoreComponents(RoundAll(Components(r, taxable, place, currency))), Rate, h) == RateOf(r, place, h)
  {
    StoredRateSum(Components(r, taxable, place, currency), h);
    ComponentRateUnder(r, taxable, place, currency, h);
  }

  lemma {:induction false} LineRates(rates: map<string, TaxRate>, line: TaxableLine, place: Place, res: LineResult)
    requires RatesValid(rates) && line.amount.Valid() && IsLineResult(rates, line, place, res)
    ensures SplitBy(StoreLine(res).components, Rate) == StoredRates(rates[line.hsn], place)
  {
    var r := rates[line.hsn];
    RateIsNotNegative(r);
    var taxable := TaxableUnrounded(line.amount.amount, line.mode, r);
    StoredComponentRates(r, taxable, place, line.amount.currency);
    assert res.components == RoundAll(Components(r, taxable, place, line.amount.currency));
  }

  /** The combined rate as stored is the configured one exactly between states or when that rate is
    * even in its 12th place; otherwise it is one such unit higher. */
  lemma {:induction false} StoredRateIsConfigured(r: TaxRate, place: Place)
    requires r.Valid()
    ensures var filed := StoredRates(r, place);
      && (filed.Gst() == r.gst <==> !place.intraState || r.gst % 2 == 0)
      && (filed.Gst() == r.gst || filed.Gst() == r.gst + 1)
      && filed.cess == r.cess && filed.cgst == filed.sgst
  {
  }

  /** What both portals receive as a line's rate: the configured GST rate exactly when the supply is
    * between states or the rate is even in its 12th place, otherwise one such unit more; always the
    * configured cess rate; and equal CGST and SGST rates. */
  lemma {:induction false} PortalRate(rates: map<string, TaxRate>, line: TaxableLine, place: Place, res: LineResult)
    requires RatesValid(rates) && line.amount.Valid() && IsLineResult(rates, line, place, res)
    ensures var filed, gst := SplitBy(StoreLine(res).components, Rate), rates[line.hsn].gst;
      && (filed.Gst() == gst <==> !place.intraState || gst % 2 == 0)
      && (filed.Gst() == gst || filed.Gst() == gst + 1)
      && filed.cess == rates[line.hsn].cess && filed.cgst == filed.sgst
  {
    LineRates(rates, line, place, res);
    StoredRateIsConfigured(rates[line.hsn], place);
  }

  /** A rate of 18.000000000001 per cent within a state is filed as 18.000000000002. */
  lemma {:induction false} RateCanBeFiledHigher(rates: map<string, TaxRate>, line: TaxableLine, place: Place,
                                                res: LineResult)
    requires RatesValid(rates) && line.amount.Valid() && IsLineResult(rates, line, place, res)
    requires place.intraState && rates[line.hsn].gst == 18000000000001
    ensures SplitBy(StoreLine(res).components, Rate).Gst() == 18000000000002
  {
    PortalRate(rates, line, place, res);
  }

  /** A line whose reference no later line repeats is filed at its own rates. */
  lemma {:induction false} FiledUnderRef(ls: seq<LineRow>, i: nat)
    requires i < |ls| && forall j | i < j < |ls| :: ls[j].lineRef != ls[i].lineRef
    ensures ls[i].lineRef in RatesByRef(ls) && RatesByRef(ls)[ls[i].lineRef] == SplitBy(ls[i].components, Rate)
  {
    if i < |ls| - 1 { FiledUnderRef(ls[..|ls| - 1], i); }
  }

  lemma {:induction false} StoredLineAt(ls: seq<LineResult>, i: nat)
    requires i < |ls|
    ensures StoreLines(ls)[i] == StoreLine(ls[i])
  {
    if i < |ls| - 1 { StoredLineAt(ls[..|ls| - 1], i); }
  }

  /** From a document as entered to what is filed: a line whose reference no later line repeats is filed
    * under it at the rates configured for its HSN/SAC code, within a state as two halves rounded up. */
  lemma {:induction false} FiledAtConfiguredRates(rates: map<string, TaxRate>, lines: seq<TaxableLine>, place: Place,
                                                  out: TaxOutput, i: nat)
    requires IsCalculated(rates, lines, place, out) && i < |lines|
    requires forall j | i < j < |lines| :: lines[j].lineRef != lines[i].lineRef
    ensures lines[i].hsn in rates
    ensures var filed, r := RatesByRef(Store(out).lines), rates[lines[i].hsn];
            var half := (r.gst + 1) / 2;
      && lines[i].lineRef in filed
      && filed[lines[i].lineRef]
         == if place.intraState then Split(half, half, 0, r.cess) else Split(0, 0, r.gst, r.cess)
  {
    var rows := StoreLines(out.lines);
    hide StoreLines, RatesByRef, SplitBy, StoreComponents, ToColumn;
    forall j | i <= j < |lines| ensures rows[j] == StoreLine(out.lines[j]) && out.lines[j].lineRef == lines[j].lineRef {
      StoredLineAt(out.lines, j);
      LineResultAt(rates, lines, place, out.lines, j);
    }
    LineResultAt(rates, lines, place, out.lines, i);
    LineRates(rates, lines[i], place, out.lines[i]);
    FiledUnderRef(rows, i);
  }
}
