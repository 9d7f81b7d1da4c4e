/** GetPartyLedger and GetAgeing of internal/modules/accounting: the running balance of a
  * party's ledger rows, and first-in-first-out ageing of its open debits. */
module Ageing {
  import opened Decimals
  import opened Ordering

  /** A row of ListByPartyUpTo.  Dates and times count seconds. */
  datatype LedgerRow = LedgerRow(date: int, debit: Column, credit: Column) {
    /** The CHECKs on journal_lines: not negative, and exactly one side positive. */
    predicate Valid() {
      debit >= 0 && credit >= 0 && (debit > 0) != (credit > 0)
    }
  }

  predicate RowsValid(rows: seq<LedgerRow>) {
    forall r <- rows :: r.Valid()
  }

  function Last<T>(s: seq<T>): T
    requires s != []
  {
    s[|s| - 1]
  }

  function Front<T>(s: seq<T>): seq<T>
    requires s != []
  {
    s[..|s| - 1]
  }

  // ---------- Running balance ----------

  /** Cumulative debits minus cumulative credits. */
  function FinalBalance(rows: seq<LedgerRow>): Column {
    if rows == [] then 0 else FinalBalance(Front(rows)) + Last(rows).debit - Last(rows).credit
  }

  /** The lowest balance ever reached, starting from nothing. */
  function LowestBalance(rows: seq<LedgerRow>): (low: Column)
    ensures low <= 0 && low <= FinalBalance(rows)
  {
    if rows == [] then 0
    else if FinalBalance(rows) < LowestBalance(Front(rows)) then FinalBalance(rows) else LowestBalance(Front(rows))
  }

  /** It is a lower bound of every running balance and one of them (or zero). */
  lemma {:induction false} LowestIsLowest(rows: seq<LedgerRow>)
    ensures forall i | 0 <= i <= |rows| :: LowestBalance(rows) <= FinalBalance(rows[..i])
    ensures exists i | 0 <= i <= |rows| :: LowestBalance(rows) == FinalBalance(rows[..i])
  {
    if rows == [] {
      assert rows[..0] == [];
    } else {
      LowestIsLowest(Front(rows));
      assert forall i | 0 <= i < |rows| :: Front(rows)[..i] == rows[..i];
      assert rows[..|rows|] == rows;
    }
  }

  /** GetPartyLedger's running balances. */
  method GetPartyLedger(rows: seq<LedgerRow>) returns (balances: seq<Column>)
    ensures |balances| == |rows|
    ensures forall i | 0 <= i < |rows| :: balances[i] == FinalBalance(rows[..i + 1])
  {
    var running := 0;
    balances := [];
    for n := 0 to |rows|
      invariant running == FinalBalance(rows[..n])
      invariant |balances| == n && forall i | 0 <= i < n :: balances[i] == FinalBalance(rows[..i + 1])
    {
      assert Front(rows[..n + 1]) == rows[..n];
      running := running + rows[n].debit - rows[n].credit;
      balances := balances + [running];
    }
  }

  // ---------- Consuming credits ----------

  datatype OpenDebit = OpenDebit(date: int, amount: Column)

  function Min(a: Column, b: Column): Column {
    if a <= b then a else b
  }

  function Clamp(x: Column, high: Column): Column {
    if x < 0 then 0 else Min(x, high)
  }

  /** A credit closes the oldest open debits first. */
  function Consume(open: seq<OpenDebit>, credit: Column): (r: seq<OpenDebit>)
    ensures |r| == |open|
  {
    if open == [] then []
    else
      var used := Min(open[0].amount, credit);
      [open[0].(amount := open[0].amount - used)] + Consume(open[1..], credit - used)
  }

  /** The open debits after all the rows. */
  function OpenDebits(rows: seq<LedgerRow>): seq<OpenDebit> {
    if rows == [] then []
    else if Last(rows).debit > 0 then OpenDebits(Front(rows)) + [OpenDebit(Last(rows).date, Last(rows).debit)]
    else Consume(OpenDebits(Front(rows)), Last(rows).credit)
  }

  /** The debits as they were booked. */
  function Debits(rows: seq<LedgerRow>): seq<OpenDebit> {
    if rows == [] then []
    else Debits(Front(rows)) + (if Last(rows).debit > 0 then [OpenDebit(Last(rows).date, Last(rows).debit)] else [])
  }

  function Amount(d: OpenDebit): Column { d.amount }

  function Total(open: seq<OpenDebit>): Column {
    SumBy(open, Amount)
  }

  predicate NotNegative(open: seq<OpenDebit>) {
    forall d <- open :: d.amount >= 0
  }

  lemma {:induction false} ConsumeNothing(open: seq<OpenDebit>)
    requires NotNegative(open)
    ensures Consume(open, 0) == open
  {
    if open != [] {
      ConsumeNothing(open[1..]);
      assert open == [open[0]] + open[1..];
    }
  }

  lemma {:induction false} TotalNotNegative(open: seq<OpenDebit>)
    requires NotNegative(open)
    ensures Total(open) >= 0
  {
    if open != [] { TotalNotNegative(open[1..]); }
  }

  // ---------- The closed form ----------

  /** Debits of which `total` is still open. */
  function Closed(debits: seq<OpenDebit>, total: Column): (r: seq<OpenDebit>)
    ensures |r| == |debits|
  {
    if debits == [] then []
    else [debits[0].(amount := Clamp(total - Total(debits[1..]), debits[0].amount))] + Closed(debits[1..], total)
  }

  /** Each debit is open for what is left of the total after all later debits. */
  lemma {:induction false} ClosedAt(debits: seq<OpenDebit>, total: Column, i: nat)
    requires i < |debits|
    ensures Closed(debits, total)[i] == debits[i].(amount := Clamp(total - Total(debits[i + 1..]), debits[i].amount))
  {
    if i > 0 {
      ClosedAt(debits[1..], total, i - 1);
      assert debits[1..][i..] == debits[i + 1..];
    }
  }

  lemma {:induction false} ClosedTotal(debits: seq<OpenDebit>, total: Column)
    requires NotNegative(debits) && 0 <= total
    ensures NotNegative(Closed(debits, total))
    ensures Total(Closed(debits, total)) == Min(total, Total(debits))
  {
    if debits != [] {
      ClosedTotal(debits[1..], total);
      TotalNotNegative(debits[1..]);
      assert Closed(debits, total)[1..] == Closed(debits[1..], total);
    }
  }

  /** Beyond the sum of the debits the total makes no difference. */
  lemma {:induction false} ClosedFull(debits: seq<OpenDebit>, total: Column)
    requires NotNegative(debits) && total >= Total(debits)
    ensures Closed(debits, total) == debits
  {
    if debits != [] {
      ClosedFull(debits[1..], total);
      assert debits == [debits[0]] + debits[1..];
    }
  }

  lemma {:induction false} ConsumeCons(d: OpenDebit, rest: seq<OpenDebit>, credit: Column)
    ensures var used := Min(d.amount, credit);
            Consume([d] + rest, credit) == [d.(amount := d.amount - used)] + Consume(rest, credit - used)
  {
    assert ([d] + rest)[1..] == rest;
  }

  lemma {:induction false} ConsumeClosed(debits: seq<OpenDebit>, total: Column, credit: Column)
    requires NotNegative(debits) && 0 <= total <= Total(debits) && 0 <= credit
    ensures Consume(Closed(debits, total), credit) == Closed(debits, Clamp(total - credit, total))
    decreases |debits|, 0
  {
    if debits != [] {
      var rest := debits[1..];
      var later, left := Total(rest), Clamp(total - credit, total);
      TotalNotNegative(rest);
      assert debits[0].amount >= 0;
      var first := Clamp(total - later, debits[0].amount);
      assert Closed(debits, total) == [debits[0].(amount := first)] + Closed(rest, total);
      ConsumeCons(debits[0].(amount := first), Closed(rest, total), credit);
      ConsumeLater(rest, total, credit, first);
      assert first - Min(first, credit) == Clamp(left - later, debits[0].amount);
    }
  }

  /** What is left of the credit after the first debit closes the later ones. */
  lemma {:induction false} ConsumeLater(rest: seq<OpenDebit>, total: Column, credit: Column, first: Column)
    requires NotNegative(rest) && 0 <= total && 0 <= credit
    requires first == if total <= Total(rest) then 0 else total - Total(rest)
    ensures Consume(Closed(rest, total), credit - Min(first, credit)) == Closed(rest, Clamp(total - credit, total))
    decreases |rest|, 1
  {
    var later := Total(rest);
    TotalNotNegative(rest);
    if total <= later {
      ConsumeClosed(rest, total, credit);
    } else if credit <= first {
      assert Closed(rest, total) == rest by { ClosedFull(rest, total); }
      assert Consume(rest, 0) == rest by { ConsumeNothing(rest); }
      assert Closed(rest, total - credit) == rest by { ClosedFull(rest, total - credit); }
    } else {
      assert Closed(rest, total) == rest == Closed(rest, later) by {
        ClosedFull(rest, total);
        ClosedFull(rest, later);
      }
      ConsumeClosed(rest, later, credit - first);
    }
  }

  lemma {:induction false} TotalAppend(a: seq<OpenDebit>, d: OpenDebit)
    ensures Total(a + [d]) == Total(a) + d.amount
  {
    SumAppend(a, [d], Amount);
  }

  lemma {:induction false} ClosedAppend(debits: seq<OpenDebit>, total: Column, d: OpenDebit)
    requires 0 <= total && d.amount >= 0
    ensures Closed(debits + [d], total + d.amount) == Closed(debits, total) + [d]
  {
    var all := debits + [d];
    if debits == [] {
      assert all[1..] == [];
    } else {
      assert all[1..] == debits[1..] + [d];
      TotalAppend(debits[1..], d);
      ClosedAppend(debits[1..], total, d);
    }
  }

  /** The consumption loop leaves each debit open for what remains of the total after all later
    * debits, so no later debit is touched while an earlier one is open; and the total is the
    * balance measured from its lowest point. */
  lemma {:induction false} OpenDebitsClosedForm(rows: seq<LedgerRow>)
    requires RowsValid(rows)
    ensures NotNegative(Debits(rows))
    ensures OpenDebits(rows) == Closed(Debits(rows), Total(OpenDebits(rows)))
    ensures Total(OpenDebits(rows)) == FinalBalance(rows) - LowestBalance(rows)
    ensures 0 <= Total(OpenDebits(rows)) <= Total(Debits(rows))
  {
    if rows != [] {
      assert Last(rows) in rows && Last(rows).Valid();
      OpenDebitsClosedForm(Front(rows));
      if Last(rows).debit > 0 { DebitRowStep(rows); } else { CreditRowStep(rows); }
    }
  }

  predicate HasClosedForm(rows: seq<LedgerRow>) {
    var total := Total(OpenDebits(rows));
    && NotNegative(Debits(rows)) && OpenDebits(rows) == Closed(Debits(rows), total)
    && total == FinalBalance(rows) - LowestBalance(rows)
    && 0 <= total <= Total(Debits(rows))
  }

  lemma {:induction false} DebitRowStep(rows: seq<LedgerRow>)
    requires rows != [] && Last(rows).Valid() && Last(rows).debit > 0 && HasClosedForm(Front(rows))
    ensures HasClosedForm(rows)
  {
    var row, total := Last(rows), Total(OpenDebits(Front(rows)));
    DebitRow(Debits(Front(rows)), total, OpenDebit(row.date, row.debit));
  }

  lemma {:induction false} CreditRowStep(rows: seq<LedgerRow>)
    requires rows != [] && Last(rows).Valid() && Last(rows).debit <= 0 && HasClosedForm(Front(rows))
    ensures HasClosedForm(rows)
  {
    CreditRow(Debits(Front(rows)), Total(OpenDebits(Front(rows))), Last(rows).credit);
    assert Debits(rows) == Debits(Front(rows));
  }

  lemma {:induction false} DebitRow(debits: seq<OpenDebit>, total: Column, d: OpenDebit)
    requires NotNegative(debits) && 0 <= total <= Total(debits) && d.amount >= 0
    ensures Closed(debits + [d], total + d.amount) == Closed(debits, total) + [d]
    ensures Total(Closed(debits, total) + [d]) == total + d.amount <= Total(debits + [d])
  {
    ClosedAppend(debits, total, d);
    TotalAppend(debits, d);
    TotalAppend(Closed(debits, total), d);
    ClosedTotal(debits, total);
  }

  lemma {:induction false} CreditRow(debits: seq<OpenDebit>, total: Column, credit: Column)
    requires NotNegative(debits) && 0 <= total <= Total(debits) && credit >= 0
    ensures var left := Clamp(total - credit, total);
      && Consume(Closed(debits, total), credit) == Closed(debits, left)
      && Total(Closed(debits, left)) == left
  {
    ConsumeClosed(debits, total, credit);
    ClosedTotal(debits, Clamp(total - credit, total));
  }

  /** The ageing total is the party ledger's last balance exactly when no balance in it was ever
    * negative. */
  lemma {:induction false} AgeingAgreesWithLedger(rows: seq<LedgerRow>)
    requires RowsValid(rows)
    ensures Total(OpenDebits(rows)) == FinalBalance(rows)
            <==> forall i | 0 <= i <= |rows| :: FinalBalance(rows[..i]) >= 0
  {
    OpenDebitsClosedForm(rows);
    LowestIsLowest(rows);
    assert rows[..0] == [];
  }

  // ---------- Buckets ----------

  /** The five age bands of the report. */
  datatype Band = Current | Days1To30 | Days31To60 | Days61To90 | Days90Plus

  /** Whole days, truncated towards zero. */
  function Days(asOf: int, date: int): int {
    if asOf >= date then (asOf - date) / 86400 else -((date - asOf) / 86400)
  }

  function BandOf(asOf: int, date: int): Band {
    var days := Days(asOf, date);
    if days <= 0 then Current else if days <= 30 then Days1To30 else if days <= 60 then Days31To60
    else if days <= 90 then Days61To90 else Days90Plus
  }

  /** The amount a debit contributes to one band. */
  function InBand(asOf: int, band: Band): OpenDebit -> Column {
    (d: OpenDebit) => if BandOf(asOf, d.date) == band then d.amount else 0
  }

  function BandTotal(open: seq<OpenDebit>, asOf: int, band: Band): Column {
    SumBy(open, InBand(asOf, band))
  }

  datatype Buckets = Buckets(current: Column, days1To30: Column, days31To60: Column, days61To90: Column,
                             days90Plus: Column, total: Column)

  function Report(open: seq<OpenDebit>, asOf: int): Buckets {
    Buckets(BandTotal(open, asOf, Current), BandTotal(open, asOf, Days1To30), BandTotal(open, asOf, Days31To60),
            BandTotal(open, asOf, Days61To90), BandTotal(open, asOf, Days90Plus), Total(open))
  }

  /** Whatever the report date, the five bands partition the total. */
  lemma {:induction false} BandsPartition(open: seq<OpenDebit>, asOf: int)
    ensures BandTotal(open, asOf, Current) + BandTotal(open, asOf, Days1To30) + BandTotal(open, asOf, Days31To60)
            + BandTotal(open, asOf, Days61To90) + BandTotal(open, asOf, Days90Plus) == Total(open)
  {
    if open != [] { BandsPartition(open[1..], asOf); }
  }

  /** The order in which the debits are visited does not matter to the report. */
  lemma {:induction false} ReportOfSorted(open: seq<OpenDebit>, asOf: int, key: OpenDebit -> int)
    ensures Report(SortBy(open, key), asOf) == Report(open, asOf)
  {
    SortSum(open, key, InBand(asOf, Current));
    SortSum(open, key, InBand(asOf, Days1To30));
    SortSum(open, key, InBand(asOf, Days31To60));
    SortSum(open, key, InBand(asOf, Days61To90));
    SortSum(open, key, InBand(asOf, Days90Plus));
    SortSum(open, key, Amount);
  }

  const DAY := 86400

  /** What is open on the dates selected. */
  function OpenOn(open: seq<OpenDebit>, dated: int -> bool): Column {
    if open == [] then 0 else (if dated(open[0].date) then open[0].amount else 0) + OpenOn(open[1..], dated)
  }

  lemma {:induction false} BandIsDated(open: seq<OpenDebit>, asOf: int, band: Band, dated: int -> bool)
    requires forall date :: dated(date) <==> BandOf(asOf, date) == band
    ensures BandTotal(open, asOf, band) == OpenOn(open, dated)
  {
    if open != [] { BandIsDated(open[1..], asOf, band, dated); }
  }

  /** Each band holds what is open on its dates: a debt is current for its first day, then in the first
    * band for thirty days, in each of the next two for thirty more, and in the last from then on. */
  predicate AgedByDate(open: seq<OpenDebit>, asOf: int, b: Buckets) {
    && b.current == OpenOn(open, date => asOf - DAY < date)
    && b.days1To30 == OpenOn(open, date => asOf - 31 * DAY < date <= asOf - DAY)
    && b.days31To60 == OpenOn(open, date => asOf - 61 * DAY < date <= asOf - 31 * DAY)
    && b.days61To90 == OpenOn(open, date => asOf - 91 * DAY < date <= asOf - 61 * DAY)
    && b.days90Plus == OpenOn(open, date => date <= asOf - 91 * DAY)
  }

  lemma {:induction false} ReportIsByDate(open: seq<OpenDebit>, asOf: int)
    ensures AgedByDate(open, asOf, Report(open, asOf))
  {
    BandIsDated(open, asOf, Current, date => asOf - DAY < date);
    BandIsDated(open, asOf, Days1To30, date => asOf - 31 * DAY < date <= asOf - DAY);
    BandIsDated(open, asOf, Days31To60, date => asOf - 61 * DAY < date <= asOf - 31 * DAY);
    BandIsDated(open, asOf, Days61To90, date => asOf - 91 * DAY < date <= asOf - 61 * DAY);
    BandIsDated(open, asOf, Days90Plus, date => date <= asOf - 91 * DAY);
  }

  function Credited(b: Buckets, band: Band, amount: Column): Buckets {
    var b := b.(total := b.total + amount);
    match band
    case Current => b.(current := b.current + amount)
    case Days1To30 => b.(days1To30 := b.days1To30 + amount)
    case Days31To60 => b.(days31To60 := b.days31To60 + amount)
    case Days61To90 => b.(days61To90 := b.days61To90 + amount)
    case Days90Plus => b.(days90Plus := b.days90Plus + amount)
  }

  lemma {:induction false} ReportAppend(open: seq<OpenDebit>, d: OpenDebit, asOf: int)
    ensures Report(open + [d], asOf) == Credited(Report(open, asOf), BandOf(asOf, d.date), d.amount)
  {
    SumAppend(open, [d], InBand(asOf, Current));
    SumAppend(open, [d], InBand(asOf, Days1To30));
    SumAppend(open, [d], InBand(asOf, Days31To60));
    SumAppend(open, [d], InBand(asOf, Days61To90));
    SumAppend(open, [d], InBand(asOf, Days90Plus));
    SumAppend(open, [d], Amount);
  }

  // ---------- The method ----------

  /** Before debit i: the earlier debits are settled, the later ones untouched. */
  ghost predicate Consuming(open: seq<OpenDebit>, amount: Column, r: seq<OpenDebit>, i: nat, credit: Column) {
    && i <= |r| == |open| && credit >= 0 && NotNegative(r)
    && r[i..] == open[i..]
    && r[..i] + Consume(r[i..], credit) == Consume(open, amount)
  }

  lemma {:induction false} ConsumeStep(open: seq<OpenDebit>, amount: Column, r: seq<OpenDebit>, i: nat, credit: Column)
    requires Consuming(open, amount, r, i, credit) && i < |r|
    ensures var used := Min(r[i].amount, credit);
            Consuming(open, amount, r[i := r[i].(amount := r[i].amount - used)], i + 1, credit - used)
  {
    var used := Min(r[i].amount, credit);
    var d := r[i].(amount := r[i].amount - used);
    var r' := r[i := d];
    assert r[i] in r;
    assert forall x <- r' :: x in r || x == d;
    assert r[i..] == [r[i]] + r[i + 1..];
    ConsumeCons(r[i], r[i + 1..], credit);
    assert r'[i + 1..] == r[i + 1..] == r[i..][1..] == open[i..][1..] == open[i + 1..];
    assert r'[..i + 1] == r[..i] + [d];
  }

  lemma {:induction false} ConsumeEnd(open: seq<OpenDebit>, amount: Column, r: seq<OpenDebit>, i: nat, credit: Column)
    requires Consuming(open, amount, r, i, credit) && (i == |r| || credit == 0)
    ensures r == Consume(open, amount) && NotNegative(r)
  {
    assert forall d <- r[i..] :: d in r;
    if i < |r| { ConsumeNothing(r[i..]); }
    assert r == r[..i] + r[i..];
  }

  /** One credit row of the loop, rewriting the open amounts in place. */
  method ConsumeInPlace(open: seq<OpenDebit>, amount: Column) returns (r: seq<OpenDebit>)
    requires NotNegative(open) && amount >= 0
    ensures r == Consume(open, amount) && NotNegative(r)
  {
    r := open;
    var credit := amount;
    var i := 0;
    assert r[..0] + Consume(r[0..], credit) == Consume(open, amount) by { assert r[0..] == open; }
    while i < |r| && credit != 0
      invariant 0 <= i <= |r| && Consuming(open, amount, r, i, credit)
    {
      ConsumeStep(open, amount, r, i, credit);
      var consumed := Min(r[i].amount, credit);
      assert r[i].amount == 0 ==> consumed == 0 && r[i := r[i]] == r;
      if r[i].amount != 0 {
        r := r[i := r[i].(amount := r[i].amount - consumed)];
        credit := credit - consumed;
      }
      i := i + 1;
    }
    ConsumeEnd(open, amount, r, i, credit);
  }

  /** The loop over the rows: debits open, credits consume. */
  method OpenAfter(rows: seq<LedgerRow>) returns (open: seq<OpenDebit>)
    requires RowsValid(rows)
    ensures open == OpenDebits(rows) && NotNegative(open)
  {
    open := [];
    for n := 0 to |rows|
      invariant open == OpenDebits(rows[..n]) && NotNegative(open)
    {
      var r := rows[n];
      assert Front(rows[..n + 1]) == rows[..n] && r.Valid();
      if r.debit > 0 {
        open := open + [OpenDebit(r.date, r.debit)];
      } else {
        open := ConsumeInPlace(open, r.credit);
      }
    }
    assert rows[..|rows|] == rows;
  }

  /** The loop over the open debits, oldest first. */
  method Bucketed(sorted: seq<OpenDebit>, asOf: int) returns (b: Buckets)
    ensures b == Report(sorted, asOf)
  {
    b := Buckets(0, 0, 0, 0, 0, 0);
    for n := 0 to |sorted|
      invariant b == Report(sorted[..n], asOf)
    {
      var d := sorted[n];
      assert sorted[..n + 1] == sorted[..n] + [d];
      ReportAppend(sorted[..n], d, asOf);
      if d.amount != 0 {
        b := Credited(b, BandOf(asOf, d.date), d.amount);
      }
    }
    assert sorted[..|sorted|] == sorted;
  }

  /** The report on the debits that the closed form leaves open: each band holds those of its dates, the
    * total is the balance measured from its lowest point, the bands add up to it, and it is the party
    * ledger's last balance exactly when that ledger never went negative. */
  predicate IsAgeing(rows: seq<LedgerRow>, asOf: int, b: Buckets) {
    && AgedByDate(Closed(Debits(rows), b.total), asOf, b)
    && b.total == FinalBalance(rows) - LowestBalance(rows)
    && b.current + b.days1To30 + b.days31To60 + b.days61To90 + b.days90Plus == b.total
    && (b.total == FinalBalance(rows) <==> forall i | 0 <= i <= |rows| :: FinalBalance(rows[..i]) >= 0)
  }

  /** Buckets the open debits of a party as of a date. */
  method GetAgeing(rows: seq<LedgerRow>, asOf: int) returns (b: Buckets)
    requires RowsValid(rows)
    ensures IsAgeing(rows, asOf, b)
  {
    var open := OpenAfter(rows);
    b := Bucketed(SortBy(open, (d: OpenDebit) => d.date), asOf);
    ReportOfSorted(open, asOf, (d: OpenDebit) => d.date);
    BandsPartition(open, asOf);
    ReportIsByDate(open, asOf);
    OpenDebitsClosedForm(rows);
    AgeingAgreesWithLedger(rows);
  }
}
