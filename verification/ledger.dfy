/** internal/modules/accounting: posting journals, receipts and payments, and fiscal-period locks.
  * Journal and period dates are SQL dates, whole days here; `now` is the day the clock shows. */
module Ledger {
  import opened Wrappers
  import opened Decimals

  // ---------- Requests ----------

  datatype LineRequest = LineRequest(account: string, party: Option<Uuid>, debit: real, credit: real)

  /** What a journal was posted for. */
  datatype Source = Source(kind: string, id: Option<Uuid>)

  /** A zero date means "now". */
  datatype JournalRequest = JournalRequest(source: Source, date: Option<int>, lines: seq<LineRequest>)

  /** The acting user's two accounting permissions. */
  datatype Principal = Principal(mayPost: bool, mayOverride: bool)

  datatype LedgerError =
    | Forbidden | EmptyJournal | NotOneSided | Unbalanced | PeriodLocked | UnknownAccount
    | AmountNotPositive | CheckViolation | NotFound

  const CASH := "1000"
  const ACCOUNTS_RECEIVABLE := "1100"
  const ACCOUNTS_PAYABLE := "2000"
  const PURCHASES := "5000"

  // ---------- Tables ----------

  datatype JournalLine = JournalLine(account: string, party: Option<Uuid>, debit: Column, credit: Column) {
    /** The CHECKs on journal_lines. */
    predicate Valid() {
      debit >= 0 && credit >= 0 && !(debit > 0 && credit > 0) && (debit > 0 || credit > 0)
    }
  }

  datatype Journal = Journal(source: Source, date: int, lines: seq<JournalLine>)

  /** A fiscal_periods row; both dates belong to the period. */
  datatype Period = Period(start: int, end: int, locked: bool) {
    predicate Contains(date: int) { start <= date <= end }
  }

  /** A receipts or payments row, with the position of its journal and the bank account it went through,
    * if any. */
  datatype Settlement = Settlement(party: Uuid, amount: Column, bankAccount: Option<Uuid>, journal: nat)

  /** Rows are never deleted, so a row's id is its position. */
  datatype Books = Books(accounts: set<string>, bankAccounts: map<Uuid, string>, periods: seq<Period>,
                         journals: seq<Journal>, receipts: seq<Settlement>, payments: seq<Settlement>)

  // ---------- Sums ----------

  function RequestedDebit(lines: seq<LineRequest>): real {
    if lines == [] then 0.0 else RequestedDebit(lines[..|lines| - 1]) + lines[|lines| - 1].debit
  }

  function RequestedCredit(lines: seq<LineRequest>): real {
    if lines == [] then 0.0 else RequestedCredit(lines[..|lines| - 1]) + lines[|lines| - 1].credit
  }

  function DebitSum(lines: seq<JournalLine>): Column {
    if lines == [] then 0 else DebitSum(lines[..|lines| - 1]) + lines[|lines| - 1].debit
  }

  function CreditSum(lines: seq<JournalLine>): Column {
    if lines == [] then 0 else CreditSum(lines[..|lines| - 1]) + lines[|lines| - 1].credit
  }

  // ---------- Posting ----------

  predicate OneSided(l: LineRequest) {
    (l.debit > 0.0) != (l.credit > 0.0)
  }

  /** Layer 1 of the double-entry invariant, on the amounts as requested. */
  function Layer1(lines: seq<LineRequest>): Option<LedgerError> {
    if exists l <- lines :: !OneSided(l) then Some(NotOneSided)
    else if RequestedDebit(lines) != RequestedCredit(lines) then Some(Unbalanced)
    else None
  }

  function Stored(l: LineRequest): JournalLine {
    JournalLine(l.account, l.party, ToColumn(l.debit), ToColumn(l.credit))
  }

  function StoredLines(lines: seq<LineRequest>): (r: seq<JournalLine>)
    ensures |r| == |lines|
    ensures forall i | 0 <= i < |lines| :: r[i] == Stored(lines[i])
  {
    seq(|lines|, i requires 0 <= i < |lines| => Stored(lines[i]))
  }

  /** Why the first unusable line cannot be inserted, if there is one. */
  function InsertError(accounts: set<string>, lines: seq<LineRequest>): Option<LedgerError> {
    if lines == [] then None
    else if lines[0].account !in accounts then Some(UnknownAccount)
    else if !Stored(lines[0]).Valid() then Some(CheckViolation)
    else InsertError(accounts, lines[1..])
  }

  /** A period covering the date.  The query is not ordered: if several cover it, `scan` stands
    * for the one the database happens to return. */
  function FindContaining(periods: seq<Period>, date: int, scan: nat): (found: Option<nat>)
    ensures found.Some? ==> found.value < |periods| && periods[found.value].Contains(date)
    ensures found.None? ==> forall p <- periods :: !p.Contains(date)
    ensures scan < |periods| && periods[scan].Contains(date) ==> found == Some(scan)
  {
    if scan < |periods| && periods[scan].Contains(date) then Some(scan) else FirstContaining(periods, date)
  }

  function FirstContaining(periods: seq<Period>, date: int): (found: Option<nat>)
    ensures found.Some? ==> found.value < |periods| && periods[found.value].Contains(date)
    ensures found.None? ==> forall p <- periods :: !p.Contains(date)
  {
    if periods == [] then None
    else if periods[0].Contains(date) then Some(0)
    else match FirstContaining(periods[1..], date)
         case None => None
         case Some(i) => Some(i + 1)
  }

  predicate Barred(periods: seq<Period>, who: Principal, date: int, scan: nat) {
    var found := FindContaining(periods, date, scan);
    found.Some? && periods[found.value].locked && !who.mayOverride
  }

  /** doPost inside the caller's transaction. */
  function PostTx(b: Books, who: Principal, req: JournalRequest, now: int, scan: nat): Result<Books, LedgerError> {
    if |req.lines| < 2 then Err(EmptyJournal)
    else if Layer1(req.lines).Some? then Err(Layer1(req.lines).value)
    else
      var date := if req.date.Some? then req.date.value else now;
      if Barred(b.periods, who, date, scan) then Err(PeriodLocked)
      else if InsertError(b.accounts, req.lines).Some? then Err(InsertError(b.accounts, req.lines).value)
      else Ok(b.(journals := b.journals + [Journal(req.source, date, StoredLines(req.lines))]))
  }

  /** Layer 2: the deferred trigger checks, at commit, every journal written in the transaction. */
  function Commit(before: Books, after: Result<Books, LedgerError>): Result<Books, LedgerError> {
    match after
    case Err(e) => Err(e)
    case Ok(b) =>
      if exists i | |before.journals| <= i < |b.journals|
           :: DebitSum(b.journals[i].lines) != CreditSum(b.journals[i].lines)
      then Err(CheckViolation) else Ok(b)
  }

  function Post(b: Books, who: Principal, req: JournalRequest, now: int, scan: nat): Result<Books, LedgerError> {
    if !who.mayPost then Err(Forbidden) else Commit(b, PostTx(b, who, req, now, scan))
  }

  // ---------- Receipts and payments ----------

  datatype SettlementRequest = SettlementRequest(party: Uuid, amount: real, bankAccount: Option<Uuid>, at: Option<int>)

  /** The cash account, or the bank account's own. */
  function MoneyAccount(b: Books, p: SettlementRequest): Result<string, LedgerError> {
    if p.bankAccount.None? then Ok(CASH)
    else if p.bankAccount.value in b.bankAccounts then Ok(b.bankAccounts[p.bankAccount.value])
    else Err(NotFound)
  }

  function ReceiptJournal(p: SettlementRequest, account: string, now: int): JournalRequest {
    JournalRequest(Source("receipt", None), Some(if p.at.Some? then p.at.value else now),
                   [LineRequest(account, None, p.amount, 0.0),
                    LineRequest(ACCOUNTS_RECEIVABLE, Some(p.party), 0.0, p.amount)])
  }

  function PaymentJournal(p: SettlementRequest, account: string, now: int): JournalRequest {
    JournalRequest(Source("payment", None), Some(if p.at.Some? then p.at.value else now),
                   [LineRequest(ACCOUNTS_PAYABLE, Some(p.party), p.amount, 0.0),
                    LineRequest(account, None, 0.0, p.amount)])
  }

  /** The row's amount numeric(20,6) CHECK (amount > 0). */
  function SettlementRow(b: Books, p: SettlementRequest): Result<Settlement, LedgerError>
    requires b.journals != []
  {
    if ToColumn(p.amount) <= 0 then Err(CheckViolation)
    else Ok(Settlement(p.party, ToColumn(p.amount), p.bankAccount, |b.journals| - 1))
  }

  function ReceiptTx(b: Books, who: Principal, p: SettlementRequest, now: int, scan: nat): Result<Books, LedgerError> {
    var account := MoneyAccount(b, p);
    if account.Err? then Err(account.error)
    else
      var posted := PostTx(b, who, ReceiptJournal(p, account.value, now), now, scan);
      if posted.Err? then posted
      else
        var row := SettlementRow(posted.value, p);
        if row.Err? then Err(row.error) else Ok(posted.value.(receipts := b.receipts + [row.value]))
  }

  function PaymentTx(b: Books, who: Principal, p: SettlementRequest, now: int, scan: nat): Result<Books, LedgerError> {
    var account := MoneyAccount(b, p);
    if account.Err? then Err(account.error)
    else
      var posted := PostTx(b, who, PaymentJournal(p, account.value, now), now, scan);
      if posted.Err? then posted
      else
        var row := SettlementRow(posted.value, p);
        if row.Err? then Err(row.error) else Ok(posted.value.(payments := b.payments + [row.value]))
  }

  function RecordReceipt(b: Books, who: Principal, p: SettlementRequest, now: int,
                         scan: nat): Result<Books, LedgerError> {
    if !who.mayPost then Err(Forbidden)
    else if p.amount <= 0.0 then Err(AmountNotPositive)
    else Commit(b, ReceiptTx(b, who, p, now, scan))
  }

  function RecordPayment(b: Books, who: Principal, p: SettlementRequest, now: int,
                         scan: nat): Result<Books, LedgerError> {
    if !who.mayPost then Err(Forbidden)
    else if p.amount <= 0.0 then Err(AmountNotPositive)
    else Commit(b, PaymentTx(b, who, p, now, scan))
  }

  // ---------- Fiscal periods ----------

  function CreatePeriod(b: Books, who: Principal, start: int, end: int): Result<Books, LedgerError> {
    if !who.mayPost then Err(Forbidden)
    else if end <= start then Err(CheckViolation)
    else Ok(b.(periods := b.periods + [Period(start, end, false)]))
  }

  function SetPeriodLock(b: Books, who: Principal, id: int, locked: bool): Result<Books, LedgerError> {
    if !who.mayPost then Err(Forbidden)
    else if !(0 <= id < |b.periods|) then Err(NotFound)
    else if b.periods[id].locked && !locked && !who.mayOverride then Err(Forbidden)
    else Ok(b.(periods := b.periods[id := b.periods[id].(locked := locked)]))
  }

  // ---------- The service ----------

  /** validateBalanced. */
  method ValidateBalanced(lines: seq<LineRequest>) returns (r: Result<(real, real), LedgerError>)
    ensures r.Ok? <==> (forall l <- lines :: OneSided(l)) && RequestedDebit(lines) == RequestedCredit(lines)
    ensures r.Ok? ==> r.value == (RequestedDebit(lines), RequestedCredit(lines))
    ensures r.Err? ==> Layer1(lines) == Some(r.error)
  {
    var totalDebit, totalCredit := 0.0, 0.0;
    for n := 0 to |lines|
      invariant totalDebit == RequestedDebit(lines[..n]) && totalCredit == RequestedCredit(lines[..n])
      invariant forall i | 0 <= i < n :: OneSided(lines[i])
    {
      if !OneSided(lines[n]) { return Err(NotOneSided); }
      assert lines[..n + 1][..n] == lines[..n];
      totalDebit := totalDebit + lines[n].debit;
      totalCredit := totalCredit + lines[n].credit;
    }
    assert lines[..|lines|] == lines;
    if totalDebit != totalCredit { return Err(Unbalanced); }
    return Ok((totalDebit, totalCredit));
  }

  class Accounting {
    var books: Books

    constructor (accounts: set<string>, bankAccounts: map<Uuid, string>)
      ensures books == Books(accounts, bankAccounts, [], [], [], [])
    {
      books := Books(accounts, bankAccounts, [], [], [], []);
    }

    /** Inserts one line of the newest journal. */
    method InsertLine(l: LineRequest) returns (r: Option<LedgerError>)
      requires books.journals != []
      modifies this
      ensures var n := |old(books).journals| - 1;
              var j := old(books).journals[n];
              if l.account !in old(books).accounts then r == Some(UnknownAccount) && books == old(books)
              else if !Stored(l).Valid() then r == Some(CheckViolation) && books == old(books)
              else r == None && books == old(books).(journals :=
                     old(books).journals[n := j.(lines := j.lines + [Stored(l)])])
    {
      if l.account !in books.accounts { return Some(UnknownAccount); }
      if !Stored(l).Valid() { return Some(CheckViolation); }
      var n := |books.journals| - 1;
      var j := books.journals[n];
      books := books.(journals := books.journals[n := j.(lines := j.lines + [Stored(l)])]);
      return None;
    }

    /** doPost: the header first, then line by line.  A failure leaves what was written so far
      * for the caller's transaction to roll back. */
    method DoPost(who: Principal, req: JournalRequest, now: int, scan: nat) returns (r: Result<nat, LedgerError>)
      modifies this
      ensures match PostTx(old(books), who, req, now, scan)
              case Ok(b) => books == b && r == Ok(|old(books).journals|)
              case Err(e) => r == Err(e)
    {
      if |req.lines| < 2 { return Err(EmptyJournal); }
      var totals := ValidateBalanced(req.lines);
      if totals.Err? { return Err(totals.error); }
      var date := if req.date.Some? then req.date.value else now;
      var period := FindContaining(books.periods, date, scan);
      if period.Some? && books.periods[period.value].locked {
        if !who.mayOverride { return Err(PeriodLocked); }
      }
      ghost var before := books;
      var id := |books.journals|;
      books := books.(journals := books.journals + [Journal(req.source, date, [])]);
      for i := 0 to |req.lines|
        invariant books == before.(journals := before.journals
                                   + [Journal(req.source, date, StoredLines(req.lines[..i]))])
        invariant InsertError(before.accounts, req.lines) == InsertError(before.accounts, req.lines[i..])
      {
        var failed := InsertLine(req.lines[i]);
        assert req.lines[i..][1..] == req.lines[i + 1..];
        if failed.Some? { return Err(failed.value); }
        assert StoredLines(req.lines[..i]) + [Stored(req.lines[i])] == StoredLines(req.lines[..i + 1]);
      }
      assert req.lines[..|req.lines|] == req.lines;
      return Ok(id);
    }

    /** Ends a transaction: commits if all went well and the deferred trigger agrees. */
    method Finish(saved: Books, failed: Option<LedgerError>) returns (r: Option<LedgerError>)
      modifies this
      ensures match Commit(saved, if failed.Some? then Err(failed.value) else Ok(old(books)))
              case Ok(b) => r == None && books == b
              case Err(e) => r == Some(e) && books == saved
    {
      r := failed;
      if r == None && exists i | |saved.journals| <= i < |books.journals| ::
           DebitSum(books.journals[i].lines) != CreditSum(books.journals[i].lines) {
        r := Some(CheckViolation);
      }
      if r.Some? { books := saved; }
    }

    method PostJournal(who: Principal, req: JournalRequest, now: int, scan: nat) returns (r: Option<LedgerError>)
      modifies this
      ensures match Post(old(books), who, req, now, scan)
              case Ok(b) => r == None && books == b
              case Err(e) => r == Some(e) && books == old(books)
    {
      if !who.mayPost { return Some(Forbidden); }
      var saved := books;
      var posted := DoPost(who, req, now, scan);
      r := Finish(saved, if posted.Err? then Some(posted.error) else None);
    }

    method Receive(who: Principal, p: SettlementRequest, now: int, scan: nat) returns (r: Option<LedgerError>)
      modifies this
      ensures match RecordReceipt(old(books), who, p, now, scan)
              case Ok(b) => r == None && books == b
              case Err(e) => r == Some(e) && books == old(books)
    {
      if !who.mayPost { return Some(Forbidden); }
      if p.amount <= 0.0 { return Some(AmountNotPositive); }
      var saved := books;
      var account := MoneyAccount(books, p);
      if account.Err? { return Some(account.error); }
      var posted := DoPost(who, ReceiptJournal(p, account.value, now), now, scan);
      var failed := if posted.Err? then Some(posted.error) else None;
      if posted.Ok? {
        if ToColumn(p.amount) <= 0 {
          failed := Some(CheckViolation);
        } else {
          var row := Settlement(p.party, ToColumn(p.amount), p.bankAccount, posted.value);
          books := books.(receipts := books.receipts + [row]);
        }
      }
      r := Finish(saved, failed);
    }

    method Pay(who: Principal, p: SettlementRequest, now: int, scan: nat) returns (r: Option<LedgerError>)
      modifies this
      ensures match RecordPayment(old(books), who, p, now, scan)
              case Ok(b) => r == None && books == b
              case Err(e) => r == Some(e) && books == old(books)
    {
      if !who.mayPost { return Some(Forbidden); }
      if p.amount <= 0.0 { return Some(AmountNotPositive); }
      var saved := books;
      var account := MoneyAccount(books, p);
      if account.Err? { return Some(account.error); }
      var posted := DoPost(who, PaymentJournal(p, account.value, now), now, scan);
      var failed := if posted.Err? then Some(posted.error) else None;
      if posted.Ok? {
        if ToColumn(p.amount) <= 0 {
          failed := Some(CheckViolation);
        } else {
          var row := Settlement(p.party, ToColumn(p.amount), p.bankAccount, posted.value);
          books := books.(payments := books.payments + [row]);
        }
      }
      r := Finish(saved, failed);
    }

    method CreateFiscalPeriod(who: Principal, start: int, end: int) returns (r: Option<LedgerError>)
      modifies this
      ensures match CreatePeriod(old(books), who, start, end)
              case Ok(b) => r == None && books == b
              case Err(e) => r == Some(e) && books == old(books)
    {
      if !who.mayPost { return Some(Forbidden); }
      if end <= start { return Some(CheckViolation); }
      books := books.(periods := books.periods + [Period(start, end, false)]);
      return None;
    }

    method LockPeriod(who: Principal, id: int, locked: bool) returns (r: Option<LedgerError>)
      modifies this
      ensures match SetPeriodLock(old(books), who, id, locked)
              case Ok(b) => r == None && books == b
              case Err(e) => r == Some(e) && books == old(books)
    {
      if !who.mayPost { return Some(Forbidden); }
      if !(0 <= id < |books.periods|) { return Some(NotFound); }
      if books.periods[id].locked && !locked {
        if !who.mayOverride { return Some(Forbidden); }
      }
      books := books.(periods := books.periods[id := books.periods[id].(locked := locked)]);
      return None;
    }
  }
}
