/** ListByPartyUpTo: the rows that the party ledger and the ageing report are built from. */
module PartyLedger {
  import opened Wrappers
  import opened Decimals
  import opened Ledger
  import opened LedgerLaws
  import opened Ordering
  import PlatformRuns
  import Purchases
  import Stock
  import Ageing

  const SECONDS_PER_DAY := 86400

  /** A journal date is a whole day; scanned into a time it is that day's midnight. */
  function Midnight(day: int): int {
    day * SECONDS_PER_DAY
  }

  /** The day of a time, in seconds. */
  function DayOf(time: int): int {
    time / SECONDS_PER_DAY
  }

  /** The journal's lines that carry the party. */
  function PartyLines(lines: seq<JournalLine>, date: int, party: Uuid): seq<Ageing.LedgerRow> {
    if lines == [] then []
    else
      var l := lines[|lines| - 1];
      PartyLines(lines[..|lines| - 1], date, party)
          + (if l.party == Some(party) then [Ageing.LedgerRow(date, l.debit, l.credit)] else [])
  }

  function PartyRows(js: seq<Journal>, party: Uuid): seq<Ageing.LedgerRow> {
    if js == [] then []
    else PartyRows(js[..|js| - 1], party) + PartyLines(js[|js| - 1].lines, Midnight(js[|js| - 1].date), party)
  }

  /** The journals dated up to a day, that day included. */
  function UpTo(js: seq<Journal>, day: int): seq<Journal> {
    if js == [] then []
    else UpTo(js[..|js| - 1], day) + (if js[|js| - 1].date <= day then [js[|js| - 1]] else [])
  }

  /** Ordered by journal date, then by the order of posting. */
  function ListByPartyUpTo(js: seq<Journal>, party: Uuid, asOf: int): seq<Ageing.LedgerRow> {
    SortBy(PartyRows(UpTo(js, DayOf(asOf)), party), (r: Ageing.LedgerRow) => r.date)
  }

  /** The party's rows of one day, in the order of posting. */
  function RowsOn(js: seq<Journal>, party: Uuid, day: int): seq<Ageing.LedgerRow> {
    if js == [] then []
    else RowsOn(js[..|js| - 1], party, day)
         + (if js[|js| - 1].date == day then PartyLines(js[|js| - 1].lines, day * 86400, party) else [])
  }

  lemma {:induction false} LinesWithDate(lines: seq<JournalLine>, date: int, party: Uuid, k: int)
    ensures WithKey(PartyLines(lines, date, party), (r: Ageing.LedgerRow) => r.date, k)
            == if date == k then PartyLines(lines, date, party) else []
  {
    if lines != [] {
      var front, l := lines[..|lines| - 1], lines[|lines| - 1];
      LinesWithDate(front, date, party, k);
      if l.party == Some(party) {
        WithKeyAppend(PartyLines(front, date, party), Ageing.LedgerRow(date, l.debit, l.credit),
                      (r: Ageing.LedgerRow) => r.date, k);
      } else {
        assert PartyLines(lines, date, party) == PartyLines(front, date, party);
      }
    }
  }

  lemma {:induction false} RowsWithDate(js: seq<Journal>, party: Uuid, last: int, day: int)
    ensures WithKey(PartyRows(UpTo(js, last), party), (r: Ageing.LedgerRow) => r.date, day * 86400)
            == if day <= last then RowsOn(js, party, day) else []
  {
    if js != [] {
      var front, j := js[..|js| - 1], js[|js| - 1];
      RowsWithDate(front, party, last, day);
      if j.date <= last {
        var rows := PartyRows(UpTo(front, last), party);
        assert UpTo(js, last)[..|UpTo(front, last)|] == UpTo(front, last);
        WithKeyConcat(rows, PartyLines(j.lines, Midnight(j.date), party), (r: Ageing.LedgerRow) => r.date, day * 86400);
        LinesWithDate(j.lines, Midnight(j.date), party, day * 86400);
      } else {
        assert UpTo(js, last) == UpTo(front, last);
      }
    }
  }

  /** The party ledger runs from the earliest day to the latest, holds of each day up to the report's the
    * party's lines in the order of posting, and of no later day anything. */
  lemma {:induction false} ListedByDay(js: seq<Journal>, party: Uuid, asOf: int, day: int)
    ensures var rows := ListByPartyUpTo(js, party, asOf);
      && Sorted(rows, (r: Ageing.LedgerRow) => r.date)
      && WithKey(rows, (r: Ageing.LedgerRow) => r.date, day * 86400)
         == (if day * 86400 <= asOf then RowsOn(js, party, day) else [])
  {
    var rows := PartyRows(UpTo(js, DayOf(asOf)), party);
    SortIsSorted(rows, (r: Ageing.LedgerRow) => r.date);
    SortIsStable(rows, (r: Ageing.LedgerRow) => r.date, day * 86400);
    RowsWithDate(js, party, DayOf(asOf), day);
  }

  function Net(r: Ageing.LedgerRow): Column {
    r.debit - r.credit
  }

  lemma {:induction false} FinalBalanceIsSum(rows: seq<Ageing.LedgerRow>)
    ensures Ageing.FinalBalance(rows) == SumBy(rows, Net)
  {
    if rows != [] {
      var front, last := rows[..|rows| - 1], rows[|rows| - 1];
      FinalBalanceIsSum(front);
      SumAppend(front, [last], Net);
      assert rows == front + [last];
    }
  }

  lemma {:induction false} LinesSum(lines: seq<JournalLine>, date: int, party: Uuid)
    ensures SumBy(PartyLines(lines, date, party), Net) == PlatformRuns.LinesBalance(lines, party)
  {
    if lines != [] {
      var front, l := lines[..|lines| - 1], lines[|lines| - 1];
      LinesSum(front, date, party);
      if l.party == Some(party) {
        SumAppend(PartyLines(front, date, party), [Ageing.LedgerRow(date, l.debit, l.credit)], Net);
      } else {
        assert PartyLines(lines, date, party) == PartyLines(front, date, party);
      }
    }
  }

  lemma {:induction false} RowsSum(js: seq<Journal>, party: Uuid)
    ensures SumBy(PartyRows(js, party), Net) == PlatformRuns.PartyBalance(js, party)
  {
    if js != [] {
      var front, j := js[..|js| - 1], js[|js| - 1];
      RowsSum(front, party);
      LinesSum(j.lines, Midnight(j.date), party);
      SumAppend(PartyRows(front, party), PartyLines(j.lines, Midnight(j.date), party), Net);
    }
  }

  /** The last running balance of the party ledger is debits minus credits over the party's lines
    * up to that day, however the rows were ordered. */
  lemma {:induction false} LastBalanceIsPartyBalance(js: seq<Journal>, party: Uuid, asOf: int)
    ensures Ageing.FinalBalance(ListByPartyUpTo(js, party, asOf))
            == PlatformRuns.PartyBalance(UpTo(js, DayOf(asOf)), party)
  {
    FinalBalanceIsSum(ListByPartyUpTo(js, party, asOf));
    SortSum(PartyRows(UpTo(js, DayOf(asOf)), party), (r: Ageing.LedgerRow) => r.date, Net);
    RowsSum(UpTo(js, DayOf(asOf)), party);
  }

  lemma {:induction false} UpToEverything(js: seq<Journal>, day: int)
    requires forall j <- js :: j.date <= day
    ensures UpTo(js, day) == js
  {
    if js != [] {
      var front, last := js[..|js| - 1], js[|js| - 1];
      assert last in js && forall j <- front :: j in js;
      UpToEverything(front, day);
      assert UpTo(js, day) == front + [last];
    }
  }

  lemma {:induction false} LinesValid(lines: seq<JournalLine>, date: int, party: Uuid)
    requires forall l <- lines :: l.Valid()
    ensures Ageing.RowsValid(PartyLines(lines, date, party))
  {
    if lines != [] {
      assert forall l <- lines[..|lines| - 1] :: l in lines;
      LinesValid(lines[..|lines| - 1], date, party);
      assert lines[|lines| - 1] in lines;
    }
  }

  lemma {:induction false} RowsOfSoundBooks(js: seq<Journal>, party: Uuid, day: int)
    requires forall j <- js :: JournalSound(j)
    ensures Ageing.RowsValid(PartyRows(UpTo(js, day), party))
  {
    if js != [] {
      var front, j := js[..|js| - 1], js[|js| - 1];
      assert forall k <- front :: k in js;
      RowsOfSoundBooks(front, party, day);
      assert j in js;
      LinesValid(j.lines, Midnight(j.date), party);
      if j.date <= day {
        assert UpTo(js, day)[..|UpTo(front, day)|] == UpTo(front, day);
      } else {
        assert UpTo(js, day) == UpTo(front, day);
      }
    }
  }

  lemma {:induction false} SoundRowsAreValid(js: seq<Journal>, party: Uuid, asOf: int)
    requires forall j <- js :: JournalSound(j)
    ensures Ageing.RowsValid(ListByPartyUpTo(js, party, asOf))
  {
    var rows := PartyRows(UpTo(js, DayOf(asOf)), party);
    var key := (r: Ageing.LedgerRow) => r.date;
    RowsOfSoundBooks(js, party, DayOf(asOf));
    SortIsSorted(rows, key);
    forall r <- SortBy(rows, key) ensures r.Valid() {
      assert r in multiset(SortBy(rows, key));
      assert r in rows;
    }
  }

  /** After every run, through every posting route, the ageing loop gets the rows it is correct for. */
  lemma {:induction false} ReachableRowsAreValid(cat: Stock.Catalogue, w: Purchases.World, acts: seq<PlatformRuns.Act>,
                                                 party: Uuid, asOf: int)
    requires cat.Valid() && BooksSound(w.books)
    ensures Ageing.RowsValid(ListByPartyUpTo(PlatformRuns.Run(cat, w, acts).books.journals, party, asOf))
  {
    PlatformRuns.LedgerStaysSound(cat, w, acts);
    SoundRowsAreValid(PlatformRuns.Run(cat, w, acts).books.journals, party, asOf);
  }

  /** What the supplier's ledger screen shows at the end of any serial run whose direct posts leave the
    * supplier alone, once every journal date has come. */
  lemma {:induction false} SupplierLedgerAfterRun(cat: Stock.Catalogue, w: Purchases.World, acts: seq<PlatformRuns.Act>,
                               supplier: Uuid, asOf: int)
    requires cat.Valid() && PlatformRuns.SupplierSettled(w, supplier)
             && forall a <- acts :: PlatformRuns.NamesNoParty(a.op, supplier)
    requires forall j <- PlatformRuns.Run(cat, w, acts).books.journals :: j.date <= DayOf(asOf)
    ensures var w' := PlatformRuns.Run(cat, w, acts);
            Ageing.FinalBalance(ListByPartyUpTo(w'.books.journals, supplier, asOf))
            == PlatformRuns.SettledWith(w'.books.payments, supplier)
                - PlatformRuns.SettledWith(w'.books.receipts, supplier)
               + PlatformRuns.Effects(w'.docs, supplier)
  {
    var js := PlatformRuns.Run(cat, w, acts).books.journals;
    PlatformRuns.SupplierBalance(cat, w, acts, supplier);
    UpToEverything(js, DayOf(asOf));
    LastBalanceIsPartyBalance(js, supplier, asOf);
  }
}
