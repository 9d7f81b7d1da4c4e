/** What each account's balance is made of: money received and paid through it, and what receipts,
  * payments and finalized purchase documents book on the three accounts of their own.  Accounts go by
  * their codes in the chart: "1000" is Cash, "1100" Accounts Receivable, "2000" Accounts Payable and
  * "5000" Purchases. */
module AccountBalances {
  import opened Wrappers
  import opened Decimals
  import opened Ledger
  import opened LedgerLaws
  import opened Purchases
  import opened PlatformRuns
  import Stock

  /** Debits minus credits of one journal's lines on the account. */
  function LinesOn(lines: seq<JournalLine>, account: string): Column {
    if lines == [] then 0
    else
      var l := lines[|lines| - 1];
      LinesOn(lines[..|lines| - 1], account) + (if l.account == account then l.debit - l.credit else 0)
  }

  function AccountBalance(js: seq<Journal>, account: string): Column {
    if js == [] then 0 else AccountBalance(js[..|js| - 1], account) + LinesOn(js[|js| - 1].lines, account)
  }

  /** The settlement went through this account: cash if it names no bank account, else that bank
    * account's own ledger account. */
  predicate Through(row: Settlement, banks: map<Uuid, string>, account: string) {
    match row.bankAccount
    case None => account == "1000"
    case Some(bank) => bank in banks && banks[bank] == account
  }

  function SettledThrough(rows: seq<Settlement>, banks: map<Uuid, string>, account: string): Column {
    if rows == [] then 0
    else
      var row := rows[|rows| - 1];
      SettledThrough(rows[..|rows| - 1], banks, account) + (if Through(row, banks, account) then row.amount else 0)
  }

  function Settled(rows: seq<Settlement>): Column {
    if rows == [] then 0 else Settled(rows[..|rows| - 1]) + rows[|rows| - 1].amount
  }

  /** What a document takes off what is owed: a final return or debit note its positive total, a final
    * invoice minus that, and any other document nothing. */
  function Reduction(d: Document): Column {
    if d.status != Finalized || Total(d.lines) <= 0 then 0
    else match d.kind
         case PurchaseInvoice => -Total(d.lines)
         case PurchaseReturn => Total(d.lines)
         case DebitNote => Total(d.lines)
         case _ => 0
  }

  function Reductions(docs: seq<Document>): Column {
    if docs == [] then 0 else Reductions(docs[..|docs| - 1]) + Reduction(docs[|docs| - 1])
  }

  /** What the other side of receipts, payments and documents books on the account. */
  function Booked(w: World, account: string): Column {
    if account == "1100" then -Settled(w.books.receipts)
    else if account == "2000" then Settled(w.books.payments) + Reductions(w.docs)
    else if account == "5000" then -Reductions(w.docs)
    else 0
  }

  predicate Explained(w: World, account: string) {
    AccountBalance(w.books.journals, account)
    == SettledThrough(w.books.receipts, w.books.bankAccounts, account)
       - SettledThrough(w.books.payments, w.books.bankAccounts, account) + Booked(w, account)
  }

  /** Direct posts book nothing on the account. */
  predicate NamesNoAccount(op: Op, account: string) {
    op.PostJournal? ==> forall l <- op.req.lines :: l.account != account
  }

  // ---------- What each act adds ----------

  lemma {:induction false} BalanceAppend(js: seq<Journal>, j: Journal, account: string)
    ensures AccountBalance(js + [j], account) == AccountBalance(js, account) + LinesOn(j.lines, account)
  {
    assert (js + [j])[..|js|] == js;
  }

  lemma {:induction false} TwoLinesOn(a: JournalLine, b: JournalLine, account: string)
    ensures LinesOn([a, b], account) == (if a.account == account then a.debit - a.credit else 0)
                                        + (if b.account == account then b.debit - b.credit else 0)
  {
    assert [a, b][..1] == [a] && [a][..0] == [];
    assert LinesOn([a], account) == if a.account == account then a.debit - a.credit else 0;
  }

  lemma {:induction false} SettledAppend(rows: seq<Settlement>, row: Settlement, banks: map<Uuid, string>,
                                         account: string)
    ensures SettledThrough(rows + [row], banks, account)
            == SettledThrough(rows, banks, account) + (if Through(row, banks, account) then row.amount else 0)
    ensures Settled(rows + [row]) == Settled(rows) + row.amount
  {
    assert (rows + [row])[..|rows|] == rows;
  }

  lemma {:induction false} ReductionsUpdate(docs: seq<Document>, id: nat, d: Document)
    requires id < |docs|
    ensures Reductions(docs[id := d]) == Reductions(docs) - Reduction(docs[id]) + Reduction(d)
    decreases |docs|
  {
    var n := |docs| - 1;
    if id == n {
      assert docs[id := d][..n] == docs[..n];
    } else {
      assert docs[id := d][..n] == docs[..n][id := d];
      ReductionsUpdate(docs[..n], id, d);
    }
  }

  lemma {:induction false} ReceiptExplained(w: World, who: Principal, p: SettlementRequest, now: int, scan: nat,
                                            account: string)
    requires RecordReceipt(w.books, who, p, now, scan).Ok? && Explained(w, account)
    ensures Explained(w.(books := RecordReceipt(w.books, who, p, now, scan).value), account)
  {
    ReceiptBooksTheCustomer(w.books, who, p, now, scan);
    var b, b' := w.books, RecordReceipt(w.books, who, p, now, scan).value;
    var j, row := b'.journals[|b.journals|], b'.receipts[|b.receipts|];
    hide RecordReceipt;
    BalanceAppend(b.journals, j, account);
    TwoLinesOn(j.lines[0], j.lines[1], account);
    SettledAppend(b.receipts, row, b.bankAccounts, account);
  }

  lemma {:induction false} PaymentExplained(w: World, who: Principal, p: SettlementRequest, now: int, scan: nat,
                                            account: string)
    requires RecordPayment(w.books, who, p, now, scan).Ok? && Explained(w, account)
    ensures Explained(w.(books := RecordPayment(w.books, who, p, now, scan).value), account)
  {
    PaymentBooksTheSupplier(w.books, who, p, now, scan);
    var b, b' := w.books, RecordPayment(w.books, who, p, now, scan).value;
    var j, row := b'.journals[|b.journals|], b'.payments[|b.payments|];
    hide RecordPayment;
    BalanceAppend(b.journals, j, account);
    TwoLinesOn(j.lines[0], j.lines[1], account);
    SettledAppend(b.payments, row, b.bankAccounts, account);
  }

  lemma {:induction false} OtherLinesOn(lines: seq<Ledger.LineRequest>, account: string)
    requires forall l <- lines :: l.account != account
    ensures LinesOn(StoredLines(lines), account) == 0
  {
    if lines != [] {
      var n := |lines| - 1;
      assert lines[n] in lines && forall l <- lines[..n] :: l in lines;
      OtherLinesOn(lines[..n], account);
      assert StoredLines(lines)[..n] == StoredLines(lines[..n]);
    }
  }

  lemma {:induction false} DirectPostBooks(b: Books, who: Principal, req: JournalRequest, now: int, scan: nat,
                                           b': Books, account: string)
    requires Post(b, who, req, now, scan) == Ok(b') && forall l <- req.lines :: l.account != account
    ensures b'.receipts == b.receipts && b'.payments == b.payments && b'.bankAccounts == b.bankAccounts
    ensures AccountBalance(b'.journals, account) == AccountBalance(b.journals, account)
  {
    PostingGrows(b, who, req, now, scan, b');
    hide Post, PostTx, Commit, LinesOn, AccountBalance, JournalSound, Barred;
    var j := b'.journals[|b.journals|];
    assert b'.journals == b.journals + [j];
    BalanceAppend(b.journals, j, account);
    OtherLinesOn(req.lines, account);
  }

  lemma {:induction false} DirectPostExplained(w: World, who: Principal, req: JournalRequest, now: int, scan: nat,
                                               account: string)
    requires Post(w.books, who, req, now, scan).Ok? && Explained(w, account)
    requires forall l <- req.lines :: l.account != account
    ensures Explained(w.(books := Post(w.books, who, req, now, scan).value), account)
  {
    hide Post, AccountBalance, SettledThrough, Settled, Reductions;
    DirectPostBooks(w.books, who, req, now, scan, Post(w.books, who, req, now, scan).value, account);
  }

  lemma {:induction false} PayableLinesOn(d: Document, account: string)
    requires d.status == Draft
    ensures var reduction := Reduction(d.(status := Finalized));
      && (Payable(d) ==> LinesOn(PayableLines(d), account)
                         == if account == "2000" then reduction else if account == "5000" then -reduction else 0)
      && (!Payable(d) ==> reduction == 0)
  {
    var ls := PayableLines(d);
    assert ls == [ls[0], ls[1]];
    TwoLinesOn(ls[0], ls[1], account);
  }

  lemma {:induction false} BanksStay(b: Books, who: Buyer, d: Document, id: int, now: int, scan: nat, b': Books)
    requires PostPayable(b, who, d, id, now, scan) == Ok(b')
    ensures b'.bankAccounts == b.bankAccounts
  {
    hide PostTx;
    if Payable(d) { PostingGrows(b, who.accounting, JournalFor(d, id), now, scan, b'); }
  }

  lemma {:induction false} FinalizeBooks(cat: Stock.Catalogue, w: World, who: Buyer, id: int, now: int, scan: nat,
                                         w': World, account: string)
    requires cat.Valid() && Finalize(cat, w, who, id, now, scan) == Ok(w')
    ensures 0 <= id < |w.docs| && w'.books.bankAccounts == w.books.bankAccounts
    ensures w'.books.receipts == w.books.receipts && w'.books.payments == w.books.payments
    ensures AccountBalance(w'.books.journals, account)
            == AccountBalance(w.books.journals, account)
               + if Payable(w.docs[id]) then LinesOn(PayableLines(w.docs[id]), account) else 0
  {
    FinalizedParts(cat, w, who, id, now, scan, w');
    PostedPayable(w.books, who, w.docs[id], id, now, scan, w'.books);
    BanksStay(w.books, who, w.docs[id], id, now, scan, w'.books);
    hide Finalize, MovementsFor, Stock.RecordAll, PostPayable, PayableLines, Payable, LinesOn, AccountBalance;
    if Payable(w.docs[id]) { BalanceAppend(w.books.journals, DocumentJournal(w.docs[id], id), account); }
  }

  lemma {:induction false} FinalizeExplained(cat: Stock.Catalogue, w: World, who: Buyer, id: int, now: int, scan: nat,
                                             w': World, account: string)
    requires cat.Valid() && Finalize(cat, w, who, id, now, scan) == Ok(w') && Explained(w, account)
    ensures Explained(w', account)
  {
    FinalizedParts(cat, w, who, id, now, scan, w');
    FinalizeBooks(cat, w, who, id, now, scan, w', account);
    hide Finalize, MovementsFor, Stock.RecordAll, PostPayable, PayableLines, Payable, LinesOn, Reductions, Reduction;
    hide AccountBalance, SettledThrough, Settled;
    PayableLinesOn(w.docs[id], account);
    ReductionsUpdate(w.docs, id, w.docs[id].(status := Finalized));
  }

  lemma {:induction false} DocumentActExplained(cat: Stock.Catalogue, w: World, a: Act, account: string)
    requires cat.Valid() && Explained(w, account) && (a.op.NewDocument? || a.op.NewLine? || a.op.FinalizeDoc?)
    ensures Explained(Next(cat, w, a), account)
  {
    hide Finalize, AccountBalance, SettledThrough, Settled;
    match a.op {
      case FinalizeDoc(id) =>
        var r := Finalize(cat, w, a.who, id, a.now, a.scan);
        if r.Ok? { FinalizeExplained(cat, w, a.who, id, a.now, a.scan, r.value, account); }
      case NewDocument(d) =>
        var w' := Next(cat, w, a);
        if w' != w { assert w'.docs[..|w.docs|] == w.docs; }
      case NewLine(id, p) =>
        var r := AddLine(w, a.who, id, p);
        if r.Ok? { ReductionsUpdate(w.docs, id, r.value.docs[id]); }
    }
  }

  lemma {:induction false} ExplainedAlike(w: World, w': World, account: string)
    requires Explained(w, account) && w'.docs == w.docs && w'.books == w.books.(periods := w'.books.periods)
    ensures Explained(w', account)
  {
  }

  lemma {:induction false} ActExplained(cat: Stock.Catalogue, w: World, a: Act, account: string)
    requires cat.Valid() && NamesNoAccount(a.op, account) && Explained(w, account)
    ensures Explained(Next(cat, w, a), account)
  {
    if a.op.NewDocument? || a.op.NewLine? || a.op.FinalizeDoc? {
      DocumentActExplained(cat, w, a, account);
    } else {
      hide Explained;
      var b, who := w.books, a.who.accounting;
      if a.op.Pay? {
        if RecordPayment(b, who, a.op.payment, a.now, a.scan).Ok? {
          PaymentExplained(w, who, a.op.payment, a.now, a.scan, account);
        }
      } else if a.op.Receive? {
        if RecordReceipt(b, who, a.op.receipt, a.now, a.scan).Ok? {
          ReceiptExplained(w, who, a.op.receipt, a.now, a.scan, account);
        }
      } else if a.op.PostJournal? {
        if Post(b, who, a.op.req, a.now, a.scan).Ok? { DirectPostExplained(w, who, a.op.req, a.now, a.scan, account); }
      } else {
        ExplainedAlike(w, Next(cat, w, a), account);
      }
    }
  }

  /** Over every serial run whose direct posts leave the account alone, its balance is the receipts less
    * the payments that went through it; and besides, Accounts Receivable carries the receipts, Accounts
    * Payable the payments and what final returns, debit notes and invoices add up to, and Purchases the
    * other side of those. */
  lemma {:induction false} AccountsExplained(cat: Stock.Catalogue, w: World, acts: seq<Act>, account: string)
    requires cat.Valid() && Explained(w, account) && forall a <- acts :: NamesNoAccount(a.op, account)
    ensures Explained(Run(cat, w, acts), account)
    decreases |acts|
  {
    if acts != [] {
      assert NamesNoAccount(acts[0].op, account);
      ActExplained(cat, w, acts[0], account);
      AccountsExplained(cat, Next(cat, w, acts[0]), acts[1..], account);
    }
  }

  /** A payment through a bank credits that bank's own account, one without a bank credits cash, and both
    * debit Accounts Payable. */
  lemma {:induction false} PaymentMovesItsAccount(b: Books, who: Principal, p: SettlementRequest, now: int, scan: nat,
                                                  account: string)
    requires RecordPayment(b, who, p, now, scan).Ok?
    ensures var b' := RecordPayment(b, who, p, now, scan).value;
            var through := match p.bankAccount
                           case None => account == "1000"
                           case Some(bank) => bank in b.bankAccounts && b.bankAccounts[bank] == account;
            AccountBalance(b'.journals, account)
            == AccountBalance(b.journals, account) - (if through then ToColumn(p.amount) else 0)
               + (if account == "2000" then ToColumn(p.amount) else 0)
  {
    PaymentBooksTheSupplier(b, who, p, now, scan);
    var j := RecordPayment(b, who, p, now, scan).value.journals[|b.journals|];
    hide RecordPayment;
    BalanceAppend(b.journals, j, account);
    TwoLinesOn(j.lines[0], j.lines[1], account);
  }

  /** The mirror image for a receipt, which credits Accounts Receivable. */
  lemma {:induction false} ReceiptMovesItsAccount(b: Books, who: Principal, p: SettlementRequest, now: int, scan: nat,
                                                  account: string)
    requires RecordReceipt(b, who, p, now, scan).Ok?
    ensures var b' := RecordReceipt(b, who, p, now, scan).value;
            var through := match p.bankAccount
                           case None => account == "1000"
                           case Some(bank) => bank in b.bankAccounts && b.bankAccounts[bank] == account;
            AccountBalance(b'.journals, account)
            == AccountBalance(b.journals, account) + (if through then ToColumn(p.amount) else 0)
               - (if account == "1100" then ToColumn(p.amount) else 0)
  {
    ReceiptBooksTheCustomer(b, who, p, now, scan);
    var j := RecordReceipt(b, who, p, now, scan).value.journals[|b.journals|];
    hide RecordReceipt;
    BalanceAppend(b.journals, j, account);
    TwoLinesOn(j.lines[0], j.lines[1], account);
  }
}
