/** What posting guarantees: balanced immutable journals, and locked periods that stay shut. */
module LedgerLaws {
  import opened Wrappers
  import opened Decimals
  import opened Ledger

  // ---------- Sound books ----------

  /** At least two lines, each on one side, and both sides equal. */
  predicate JournalSound(j: Journal) {
    |j.lines| >= 2 && (forall l <- j.lines :: l.Valid()) && DebitSum(j.lines) == CreditSum(j.lines)
  }

  predicate BooksSound(b: Books) {
    forall j <- b.journals :: JournalSound(j)
  }

  function AllDebits(js: seq<Journal>): Column {
    if js == [] then 0 else AllDebits(js[..|js| - 1]) + DebitSum(js[|js| - 1].lines)
  }

  function AllCredits(js: seq<Journal>): Column {
    if js == [] then 0 else AllCredits(js[..|js| - 1]) + CreditSum(js[|js| - 1].lines)
  }

  /** The whole ledger balances when every journal does. */
  lemma {:induction false} LedgerBalances(js: seq<Journal>)
    requires forall j <- js :: JournalSound(j)
    ensures AllDebits(js) == AllCredits(js)
  {
    if js != [] {
      var n := |js| - 1;
      assert JournalSound(js[n]);
      assert forall j <- js[..n] :: j in js;
      LedgerBalances(js[..n]);
    }
  }

  /** Journals are only ever added, the added ones are sound, and each was dated outside the locked
    * periods or posted by a user who may override. */
  ghost predicate Grows(b: Books, b': Books, who: Principal) {
    && b'.accounts == b.accounts && b'.bankAccounts == b.bankAccounts
    && b'.periods == b.periods && b.journals <= b'.journals
    && forall i | |b.journals| <= i < |b'.journals| ::
         JournalSound(b'.journals[i]) && exists scan :: !Barred(b.periods, who, b'.journals[i].date, scan)
  }

  lemma {:induction false} InsertedLines(accounts: set<string>, lines: seq<LineRequest>)
    requires InsertError(accounts, lines) == None
    ensures forall l <- StoredLines(lines) :: l.Valid() && l.account in accounts
  {
    if lines != [] {
      InsertedLines(accounts, lines[1..]);
      assert StoredLines(lines) == [Stored(lines[0])] + StoredLines(lines[1..]);
    }
  }

  /** A committed posting only grows the books, by one sound journal. */
  lemma {:induction false} PostingGrows(b: Books, who: Principal, req: JournalRequest, now: int, scan: nat, b': Books)
    requires Commit(b, PostTx(b, who, req, now, scan)) == Ok(b')
    ensures Grows(b, b', who) && |b'.journals| == |b.journals| + 1
    ensures b'.receipts == b.receipts && b'.payments == b.payments
    ensures b'.journals[|b.journals|].lines == StoredLines(req.lines) && b'.journals[|b.journals|].source == req.source
  {
    var n := |b.journals|;
    InsertedLines(b.accounts, req.lines);
    assert !Barred(b.periods, who, b'.journals[n].date, scan);
  }

  /** The stored line books what was requested on the same account and party, to six places. */
  predicate BooksLine(l: LineRequest, stored: JournalLine) {
    && stored.account == l.account && stored.party == l.party
    && -0.0000005 <= FromColumn(stored.debit) - l.debit <= 0.0000005
    && -0.0000005 <= FromColumn(stored.credit) - l.credit <= 0.0000005
  }

  /** The journal that a post appends is the requested one: its source, its date or else today's, and its
    * lines in their order. */
  lemma {:induction false} PostedAsRequested(b: Books, who: Principal, req: JournalRequest, now: int, scan: nat,
                                             b': Books)
    requires Commit(b, PostTx(b, who, req, now, scan)) == Ok(b')
    ensures |b'.journals| == |b.journals| + 1
    ensures var j := b'.journals[|b.journals|];
      && j.source == req.source && j.date == (match req.date case Some(date) => date case None => now)
      && |j.lines| == |req.lines| && forall i | 0 <= i < |req.lines| :: BooksLine(req.lines[i], j.lines[i])
  {
    PostingGrows(b, who, req, now, scan, b');
    forall i | 0 <= i < |req.lines| ensures BooksLine(req.lines[i], Stored(req.lines[i])) {
      ToColumnIsNearest(req.lines[i].debit);
      ToColumnIsNearest(req.lines[i].credit);
    }
  }

  /** The line's account exists, and of its two stored amounts one is positive and the other zero. */
  predicate Insertable(accounts: set<string>, l: LineRequest) {
    var debit, credit := ToColumn(l.debit), ToColumn(l.credit);
    l.account in accounts && ((debit > 0 && credit == 0) || (debit == 0 && credit > 0))
  }

  lemma {:induction false} InsertErrorTells(accounts: set<string>, lines: seq<LineRequest>)
    ensures InsertError(accounts, lines) == None <==> forall l <- lines :: Insertable(accounts, l)
    ensures InsertError(accounts, lines).Some? ==>
      || (InsertError(accounts, lines) == Some(UnknownAccount) && exists l <- lines :: l.account !in accounts)
      || (InsertError(accounts, lines) == Some(CheckViolation)
          && exists l <- lines :: l.account in accounts && !Insertable(accounts, l))
    decreases |lines|
  {
    if lines != [] {
      InsertErrorTells(accounts, lines[1..]);
      assert lines[0] in lines && forall l <- lines[1..] :: l in lines;
      assert forall l <- lines :: l == lines[0] || l in lines[1..];
      assert Insertable(accounts, lines[0]) <==> lines[0].account in accounts && Stored(lines[0]).Valid();
      hide Insertable, Stored;
    }
  }

  /** Exactly when a direct post goes through, and what each of its errors says. */
  lemma {:induction false} WhenPosted(b: Books, who: Principal, req: JournalRequest, now: int, scan: nat)
    ensures var r, date := Post(b, who, req, now, scan), match req.date case Some(date) => date case None => now;
      var stored := StoredLines(req.lines);
      && (r.Ok? <==>
            && who.mayPost && |req.lines| >= 2 && (forall l <- req.lines :: (l.debit > 0.0) != (l.credit > 0.0))
            && RequestedDebit(req.lines) == RequestedCredit(req.lines) && !Barred(b.periods, who, date, scan)
            && (forall l <- req.lines :: Insertable(b.accounts, l)) && DebitSum(stored) == CreditSum(stored))
      && (r == Err(Forbidden) ==> !who.mayPost)
      && (r == Err(EmptyJournal) ==> |req.lines| < 2)
      && (r == Err(NotOneSided) ==> exists l <- req.lines :: (l.debit > 0.0) == (l.credit > 0.0))
      && (r == Err(Unbalanced) ==> RequestedDebit(req.lines) != RequestedCredit(req.lines))
      && (r == Err(PeriodLocked) ==> Barred(b.periods, who, date, scan))
      && (r == Err(UnknownAccount) ==> exists l <- req.lines :: l.account !in b.accounts)
      && (r == Err(CheckViolation) ==>
            (exists l <- req.lines :: !Insertable(b.accounts, l)) || DebitSum(stored) != CreditSum(stored))
      && (r.Err? ==> r.error in {Forbidden, EmptyJournal, NotOneSided, Unbalanced, PeriodLocked, UnknownAccount,
                                 CheckViolation})
  {
    InsertErrorTells(b.accounts, req.lines);
    hide ToColumn, Barred, InsertError, Insertable;
    var posted := PostTx(b, who, req, now, scan);
    if posted.Ok? { assert posted.value.journals[|b.journals|].lines == StoredLines(req.lines); }
  }

  // ---------- Layers 1 and 2 ----------

  /** The amounts of a request fit their columns. */
  ghost predicate Storable(lines: seq<LineRequest>) {
    forall l <- lines :: l.debit == FromColumn(ToColumn(l.debit)) && l.credit == FromColumn(ToColumn(l.credit))
  }

  lemma {:induction false} StoredSums(lines: seq<LineRequest>)
    requires Storable(lines)
    ensures RequestedDebit(lines) == FromColumn(DebitSum(StoredLines(lines)))
    ensures RequestedCredit(lines) == FromColumn(CreditSum(StoredLines(lines)))
  {
    if lines != [] {
      var n := |lines| - 1;
      assert forall l <- lines[..n] :: l in lines;
      StoredSums(lines[..n]);
      assert StoredLines(lines)[..n] == StoredLines(lines[..n]);
      assert lines[n] in lines;
    }
  }

  /** When the amounts fit their columns, what Layer 1 accepts the commit-time trigger accepts. */
  lemma {:induction false} StorableJournalsCommit(b: Books, who: Principal, req: JournalRequest, now: int, scan: nat)
    requires Storable(req.lines)
    ensures Commit(b, PostTx(b, who, req, now, scan)) == PostTx(b, who, req, now, scan)
  {
    var posted := PostTx(b, who, req, now, scan);
    if posted.Ok? {
      StoredSums(req.lines);
      assert FromColumn(DebitSum(StoredLines(req.lines))) == FromColumn(CreditSum(StoredLines(req.lines)));
      assert posted.value.journals[|b.journals|].lines == StoredLines(req.lines);
    }
  }

  /** How far storing the lines moves debits minus credits. */
  function Residue(lines: seq<LineRequest>): real {
    if lines == [] then 0.0
    else
      var l := lines[|lines| - 1];
      Residue(lines[..|lines| - 1]) + (FromColumn(ToColumn(l.debit)) - l.debit)
          - (FromColumn(ToColumn(l.credit)) - l.credit)
  }

  lemma {:induction false} StoredDifference(lines: seq<LineRequest>)
    ensures FromColumn(DebitSum(StoredLines(lines))) - FromColumn(CreditSum(StoredLines(lines)))
            == RequestedDebit(lines) - RequestedCredit(lines) + Residue(lines)
  {
    if lines != [] {
      hide ToColumn;
      var n := |lines| - 1;
      StoredDifference(lines[..n]);
      assert StoredLines(lines)[..n] == StoredLines(lines[..n]);
    }
  }

  /** The two layers agree on a journal exactly when what its lines round away cancels out. */
  lemma {:induction false} LayersAgree(b: Books, who: Principal, req: JournalRequest, now: int, scan: nat)
    requires PostTx(b, who, req, now, scan).Ok?
    ensures Commit(b, PostTx(b, who, req, now, scan)).Ok? <==> Residue(req.lines) == 0.0
  {
    var posted := PostTx(b, who, req, now, scan).value;
    StoredDifference(req.lines);
    assert posted.journals[|b.journals|].lines == StoredLines(req.lines);
    hide ToColumn;
    assert DebitSum(StoredLines(req.lines)) == CreditSum(StoredLines(req.lines)) <==> Residue(req.lines) == 0.0;
  }

  /** When they do not, the layers can disagree: two half-millionths against one millionth balance
    * as requested and not as stored. */
  lemma {:induction false} LayersCanDisagree(b: Books, date: int)
    requires CASH in b.accounts && PURCHASES in b.accounts && b.periods == []
    ensures var tiny := LineRequest(CASH, None, 0.0000005, 0.0);
            var req := JournalRequest(Source("manual", None), Some(date),
                                      [tiny, tiny, LineRequest(PURCHASES, None, 0.0, 0.000001)]);
            var who := Principal(true, false);
            Layer1(req.lines) == None && PostTx(b, who, req, 0, 0).Ok? && Post(b, who, req, 0, 0) == Err(CheckViolation)
  {
    var tiny := LineRequest(CASH, None, 0.0000005, 0.0);
    var other := LineRequest(PURCHASES, None, 0.0, 0.000001);
    var lines := [tiny, tiny, other];
    assert lines[..2] == [tiny, tiny] && [tiny, tiny][..1] == [tiny] && [tiny][..0] == [];
    assert RequestedDebit([tiny]) == 0.0000005 && RequestedCredit([tiny]) == 0.0;
    assert RequestedDebit([tiny, tiny]) == 0.000001 && RequestedCredit([tiny, tiny]) == 0.0;
    var t, o := JournalLine(CASH, None, 1, 0), JournalLine(PURCHASES, None, 0, 1);
    assert Stored(tiny) == t && Stored(other) == o;
    var stored := StoredLines(lines);
    assert stored == [t, t, o];
    assert stored[..2] == [t, t] && [t, t][..1] == [t] && [t][..0] == [];
    assert DebitSum([t]) == 1 && CreditSum([t]) == 0;
    assert DebitSum([t, t]) == 2 && CreditSum([t, t]) == 0;
    assert DebitSum(stored) == 2 && CreditSum(stored) == 1;
    assert lines[1..] == [tiny, other] && lines[1..][1..] == [other] && [other][1..] == [];
    assert InsertError(b.accounts, [other]) == None;
    assert InsertError(b.accounts, [tiny, other]) == None by { assert [tiny, other][1..] == [other]; }
    assert InsertError(b.accounts, lines) == None;
    var posted := PostTx(b, Principal(true, false), JournalRequest(Source("manual", None), Some(date), lines), 0, 0);
    assert posted.value.journals[|b.journals|].lines == stored;
  }

  /** A journal of one debit and one credit of the same amount. */
  predicate Mirrored(lines: seq<LineRequest>, amount: real) {
    |lines| == 2 &&
    ((lines[0].debit == amount && lines[0].credit == 0.0 && lines[1].debit == 0.0 && lines[1].credit == amount)
     || (lines[0].debit == 0.0 && lines[0].credit == amount && lines[1].debit == amount && lines[1].credit == 0.0))
  }

  lemma {:induction false} MirroredLines(lines: seq<LineRequest>, amount: real)
    requires Mirrored(lines, amount) && amount > 0.0
    ensures Layer1(lines) == None
    ensures DebitSum(StoredLines(lines)) == CreditSum(StoredLines(lines))
    ensures Stored(lines[0]).Valid() <==> ToColumn(amount) > 0
    ensures Stored(lines[1]).Valid() <==> ToColumn(amount) > 0
  {
    var stored := StoredLines(lines);
    assert ToColumn(0.0) == 0 && ToColumn(amount) >= 0;
    TwoRequested(lines);
    TwoStored(stored);
  }

  lemma {:induction false} TwoRequested(lines: seq<LineRequest>)
    requires |lines| == 2
    ensures RequestedDebit(lines) == lines[0].debit + lines[1].debit
    ensures RequestedCredit(lines) == lines[0].credit + lines[1].credit
  {
    assert lines[..1][..0] == [];
    assert RequestedDebit(lines[..1]) == lines[0].debit && RequestedCredit(lines[..1]) == lines[0].credit;
  }

  lemma {:induction false} TwoStored(lines: seq<JournalLine>)
    requires |lines| == 2
    ensures DebitSum(lines) == lines[0].debit + lines[1].debit
    ensures CreditSum(lines) == lines[0].credit + lines[1].credit
  {
    assert lines[..1][..0] == [];
    assert DebitSum(lines[..1]) == lines[0].debit && CreditSum(lines[..1]) == lines[0].credit;
  }

  /** Exactly when a mirrored journal posts, and that the trigger never objects to it. */
  lemma {:induction false} MirroredPosts(b: Books, who: Principal, req: JournalRequest, now: int, scan: nat,
                                         amount: real)
    requires Mirrored(req.lines, amount) && amount > 0.0 && req.date.Some?
    ensures var posted := PostTx(b, who, req, now, scan);
      && Commit(b, posted) == posted
      && (posted.Ok? <==> !Barred(b.periods, who, req.date.value, scan) && req.lines[0].account in b.accounts
                          && req.lines[1].account in b.accounts && ToColumn(amount) > 0)
  {
    MirroredLines(req.lines, amount);
    var rest := req.lines[1..];
    assert rest[0] == req.lines[1] && rest[1..] == [];
    assert InsertError(b.accounts, rest[1..]) == None;
    assert InsertError(b.accounts, rest) == None <==> rest[0].account in b.accounts && Stored(rest[0]).Valid();
    assert InsertError(b.accounts, req.lines) == None <==>
      req.lines[0].account in b.accounts && Stored(req.lines[0]).Valid() && InsertError(b.accounts, rest) == None;
    var posted := PostTx(b, who, req, now, scan);
    if posted.Ok? {
      assert posted.value.journals[|b.journals|].lines == StoredLines(req.lines);
    }
  }

  // ---------- Receipts and payments ----------

  function SettledAt(p: SettlementRequest, now: int): int {
    if p.at.Some? then p.at.value else now
  }

  /** Cash exists, or the named bank account and its own ledger account do. */
  predicate HasMoneyAccount(b: Books, p: SettlementRequest) {
    match p.bankAccount
    case None => CASH in b.accounts
    case Some(bank) => bank in b.bankAccounts && b.bankAccounts[bank] in b.accounts
  }

  /** A receipt is recorded exactly when the user may post, the amount survives storage, the money
    * account and Accounts Receivable exist and the date is not locked; it then credits the
    * customer and debits the money account by the same stored amount. */
  lemma {:induction false} ReceiptBooksTheCustomer(b: Books, who: Principal, p: SettlementRequest, now: int, scan: nat)
    ensures var r := RecordReceipt(b, who, p, now, scan);
      && (r.Ok? <==> who.mayPost && ToColumn(p.amount) > 0 && HasMoneyAccount(b, p)
                     && ACCOUNTS_RECEIVABLE in b.accounts
                     && !Barred(b.periods, who, SettledAt(p, now), scan))
      && (r.Ok? ==>
            var amount := ToColumn(p.amount);
            && MoneyAccount(b, p).Ok? && Grows(b, r.value, who)
            && r.value.journals == b.journals + [Journal(Source("receipt", None), SettledAt(p, now),
                 [JournalLine(MoneyAccount(b, p).value, None, amount, 0),
                  JournalLine(ACCOUNTS_RECEIVABLE, Some(p.party), 0, amount)])]
            && r.value.receipts == b.receipts + [Settlement(p.party, amount, p.bankAccount, |b.journals|)]
            && r.value.payments == b.payments)
  {
    var account := MoneyAccount(b, p);
    assert ToColumn(0.0) == 0;
    if p.amount > 0.0 && account.Ok? {
      var req := ReceiptJournal(p, account.value, now);
      MirroredPosts(b, who, req, now, scan, p.amount);
      var posted := PostTx(b, who, req, now, scan);
      if posted.Ok? {
        PostingGrows(b, who, req, now, scan, posted.value);
        assert StoredLines(req.lines) == [JournalLine(account.value, None, ToColumn(p.amount), 0),
                                          JournalLine(ACCOUNTS_RECEIVABLE, Some(p.party), 0, ToColumn(p.amount))];
      }
    } else if p.amount <= 0.0 {
      ToColumnMonotone(p.amount, 0.0);
    }
  }

  /** The mirror image for a payment to a supplier. */
  lemma {:induction false} PaymentBooksTheSupplier(b: Books, who: Principal, p: SettlementRequest, now: int, scan: nat)
    ensures var r := RecordPayment(b, who, p, now, scan);
      && (r.Ok? <==> who.mayPost && ToColumn(p.amount) > 0 && HasMoneyAccount(b, p)
                     && ACCOUNTS_PAYABLE in b.accounts
                     && !Barred(b.periods, who, SettledAt(p, now), scan))
      && (r.Ok? ==>
            var amount := ToColumn(p.amount);
            && MoneyAccount(b, p).Ok? && Grows(b, r.value, who)
            && r.value.journals == b.journals + [Journal(Source("payment", None), SettledAt(p, now),
                 [JournalLine(ACCOUNTS_PAYABLE, Some(p.party), amount, 0),
                  JournalLine(MoneyAccount(b, p).value, None, 0, amount)])]
            && r.value.payments == b.payments + [Settlement(p.party, amount, p.bankAccount, |b.journals|)]
            && r.value.receipts == b.receipts)
  {
    var account := MoneyAccount(b, p);
    assert ToColumn(0.0) == 0;
    if p.amount > 0.0 && account.Ok? {
      var req := PaymentJournal(p, account.value, now);
      MirroredPosts(b, who, req, now, scan, p.amount);
      var posted := PostTx(b, who, req, now, scan);
      if posted.Ok? {
        PostingGrows(b, who, req, now, scan, posted.value);
        assert StoredLines(req.lines) == [JournalLine(ACCOUNTS_PAYABLE, Some(p.party), ToColumn(p.amount), 0),
                                          JournalLine(account.value, None, 0, ToColumn(p.amount))];
      }
    } else if p.amount <= 0.0 {
      ToColumnMonotone(p.amount, 0.0);
    }
  }

  /** What each error of a receipt or a payment says. */
  lemma {:induction false} SettlementErrors(b: Books, who: Principal, p: SettlementRequest, now: int, scan: nat)
    ensures forall r <- [RecordReceipt(b, who, p, now, scan), RecordPayment(b, who, p, now, scan)] ::
      && (r == Err(Forbidden) <==> !who.mayPost)
      && (r == Err(AmountNotPositive) <==> who.mayPost && p.amount <= 0.0)
      && (r == Err(NotFound) <==> who.mayPost && p.amount > 0.0
                                  && p.bankAccount.Some? && p.bankAccount.value !in b.bankAccounts)
      && (r == Err(PeriodLocked) <==>
            who.mayPost && p.amount > 0.0 && (p.bankAccount.Some? ==> p.bankAccount.value in b.bankAccounts)
            && Barred(b.periods, who, SettledAt(p, now), scan))
      && (r.Err? ==> r.error in {Forbidden, AmountNotPositive, NotFound, PeriodLocked, UnknownAccount, CheckViolation})
  {
    var account := MoneyAccount(b, p);
    if p.amount > 0.0 && account.Ok? {
      EvenLines(b, who, ReceiptJournal(p, account.value, now), now, scan);
      EvenLines(b, who, PaymentJournal(p, account.value, now), now, scan);
    }
    hide PostTx, ToColumn, Barred;
  }

  /** Two lines that mirror each other fail only where the date is barred or a line cannot be inserted. */
  lemma {:induction false} EvenLines(b: Books, who: Principal, req: JournalRequest, now: int, scan: nat)
    requires |req.lines| == 2 && req.date.Some? && OneSided(req.lines[0]) && OneSided(req.lines[1])
    requires req.lines[0].debit == req.lines[1].credit && req.lines[0].credit == req.lines[1].debit
    ensures var r := PostTx(b, who, req, now, scan);
      && (r == Err(PeriodLocked) <==> Barred(b.periods, who, req.date.value, scan))
      && (r.Err? ==> r.error in {PeriodLocked, UnknownAccount, CheckViolation})
  {
    var ls := req.lines;
    assert ls[..1][..0] == [];
    assert RequestedDebit(ls) == RequestedDebit(ls[..1]) + ls[1].debit && RequestedDebit(ls[..1]) == ls[0].debit;
    assert RequestedCredit(ls) == RequestedCredit(ls[..1]) + ls[1].credit && RequestedCredit(ls[..1]) == ls[0].credit;
    assert Layer1(ls) == None;
    InsertErrorTells(b.accounts, ls);
    hide ToColumn, Layer1;
  }

  // ---------- Locked periods ----------

  predicate Disjoint(p: Period, q: Period) {
    p.end < q.start || q.end < p.start
  }

  /** A date is closed to users without the override, whatever row the lookup returns, exactly when
    * some period covers it and every covering period is locked. */
  lemma {:induction false} ClosedDates(ps: seq<Period>, date: int, who: Principal)
    ensures (forall scan :: Barred(ps, who, date, scan)) <==>
            !who.mayOverride && (exists p <- ps :: p.start <= date <= p.end)
            && forall p <- ps | p.start <= date <= p.end :: p.locked
    ensures (exists scan :: Barred(ps, who, date, scan)) <==>
            !who.mayOverride && exists p <- ps :: p.start <= date <= p.end && p.locked
  {
    if forall scan :: Barred(ps, who, date, scan) {
      assert Barred(ps, who, date, |ps|);
      var found := FindContaining(ps, date, |ps|).value;
      assert ps[found] in ps;
      forall p <- ps | p.Contains(date) ensures p.locked {
        var i :| 0 <= i < |ps| && ps[i] == p;
        assert Barred(ps, who, date, i);
      }
    }
    if !who.mayOverride && exists p <- ps :: p.Contains(date) && p.locked {
      var i :| 0 <= i < |ps| && ps[i].Contains(date) && ps[i].locked;
      assert Barred(ps, who, date, i);
    }
    forall scan | Barred(ps, who, date, scan) ensures exists p <- ps :: p.Contains(date) && p.locked {
      assert ps[FindContaining(ps, date, scan).value] in ps;
    }
  }

  /** The date is closed to the user whatever row the lookup returns. */
  ghost predicate ClosedTo(ps: seq<Period>, date: int, who: Principal) {
    forall scan :: Barred(ps, who, date, scan)
  }

  /** A new period closes no date, and opens every closed date it covers. */
  lemma {:induction false} NewPeriodOpens(b: Books, who: Principal, start: int, end: int, date: int, user: Principal)
    requires !user.mayOverride
    ensures var r := CreatePeriod(b, who, start, end);
      && (r.Ok? <==> who.mayPost && start < end)
      && (r.Ok? ==> r.value == b.(periods := r.value.periods)
                    && (ClosedTo(r.value.periods, date, user)
                        <==> ClosedTo(b.periods, date, user) && !(start <= date <= end)))
  {
    if CreatePeriod(b, who, start, end).Ok? {
      var b' := CreatePeriod(b, who, start, end).value;
      ClosedDates(b.periods, date, user);
      ClosedDates(b'.periods, date, user);
      assert b'.periods[|b.periods|] in b'.periods;
      assert forall p <- b.periods :: p in b'.periods;
      assert forall p <- b'.periods :: p in b.periods || p == Period(start, end, false);
    }
  }

  /** Locking opens no date and unlocking closes none; only a user with the override takes a lock off;
    * and putting the lock back as it was restores the books, for whoever may do that. */
  lemma {:induction false} LockingLaws(b: Books, who: Principal, id: int, locked: bool, b': Books, date: int,
                                       user: Principal, other: Principal)
    requires SetPeriodLock(b, who, id, locked) == Ok(b') && !user.mayOverride
    ensures locked ==> (ClosedTo(b.periods, date, user) ==> ClosedTo(b'.periods, date, user))
    ensures !locked ==> (ClosedTo(b'.periods, date, user) ==> ClosedTo(b.periods, date, user))
    ensures (exists i | 0 <= i < |b.periods| :: b.periods[i].locked && !b'.periods[i].locked) ==> who.mayOverride
    ensures SetPeriodLock(b', other, id, b.periods[id].locked) == Ok(b)
            <==> other.mayPost && (locked && !b.periods[id].locked ==> other.mayOverride)
  {
    LockKeepsCover(b.periods, id, locked, date, user);
    assert b'.periods[id := b.periods[id]] == b.periods;
  }

  lemma {:induction false} LockKeepsCover(ps: seq<Period>, id: nat, locked: bool, date: int, user: Principal)
    requires id < |ps| && !user.mayOverride
    ensures var qs := ps[id := ps[id].(locked := locked)];
      && (locked ==> (ClosedTo(ps, date, user) ==> ClosedTo(qs, date, user)))
      && (!locked ==> (ClosedTo(qs, date, user) ==> ClosedTo(ps, date, user)))
  {
    var qs := ps[id := ps[id].(locked := locked)];
    ClosedDates(ps, date, user);
    ClosedDates(qs, date, user);
    if locked && ClosedTo(ps, date, user) {
      AllCoveringLocked(ps, qs, date);
    }
    if !locked && ClosedTo(qs, date, user) {
      AllCoveringLocked(qs, ps, date);
    }
  }

  /** The same periods, locked at least where they were. */
  lemma {:induction false} AllCoveringLocked(ps: seq<Period>, qs: seq<Period>, date: int)
    requires |ps| == |qs|
    requires forall i | 0 <= i < |ps|
               :: ps[i].start == qs[i].start && ps[i].end == qs[i].end && (ps[i].locked ==> qs[i].locked)
    requires (exists p <- ps :: p.Contains(date)) && forall p <- ps | p.Contains(date) :: p.locked
    ensures (exists q <- qs :: q.Contains(date)) && forall q <- qs | q.Contains(date) :: q.locked
  {
    var p :| p in ps && p.Contains(date);
    var i :| 0 <= i < |ps| && ps[i] == p;
    assert qs[i] in qs && qs[i].Contains(date);
    forall q <- qs | q.Contains(date) ensures q.locked {
      var j :| 0 <= j < |qs| && qs[j] == q;
      assert ps[j] in ps && ps[j].Contains(date);
    }
  }

  /** Period i is locked and overlaps no other period. */
  predicate Shut(ps: seq<Period>, i: nat) {
    i < |ps| && ps[i].locked && forall j | 0 <= j < |ps| && j != i :: Disjoint(ps[i], ps[j])
  }

  /** Nothing was added inside period i. */
  ghost predicate Undisturbed(b: Books, b': Books, i: nat)
    requires i < |b.periods|
  {
    b.journals <= b'.journals
    && forall j | |b.journals| <= j < |b'.journals| :: !b.periods[i].Contains(b'.journals[j].date)
  }

  /** No posting by a user without the override reaches a shut period. */
  lemma {:induction false} PostingStaysOut(b: Books, b': Books, who: Principal, i: nat)
    requires Shut(b.periods, i) && Grows(b, b', who) && !who.mayOverride
    ensures Undisturbed(b, b', i)
  {
    forall j | |b.journals| <= j < |b'.journals| ensures !b.periods[i].Contains(b'.journals[j].date) {
      var date := b'.journals[j].date;
      var scan :| !Barred(b.periods, who, date, scan);
      if b.periods[i].Contains(date) { ShutIsFound(b.periods, i, date, scan); }
    }
  }

  /** A day of a shut period is looked up to that period and no other. */
  lemma {:induction false} ShutIsFound(ps: seq<Period>, i: nat, date: int, scan: nat)
    requires Shut(ps, i) && ps[i].Contains(date)
    ensures FindContaining(ps, date, scan) == Some(i)
  {
    assert ps[i] in ps;
  }

  /** An unlocked period laid over a locked one is a way in: creating one needs no override, and
    * the lookup may then answer with it. */
  lemma {:induction false} OverlapOpensLockedPeriod(b: Books, who: Principal, i: nat, req: JournalRequest, date: int)
    requires who == Principal(true, false) && i < |b.periods| && b.periods[i].locked && b.periods[i].Contains(date)
    requires req.date == Some(date) && |req.lines| >= 2 && Layer1(req.lines) == None
             && InsertError(b.accounts, req.lines) == None
    ensures PostTx(b, who, req, 0, i) == Err(PeriodLocked)
    ensures var wider := CreatePeriod(b, who, date, date + 1);
            wider.Ok? && PostTx(wider.value, who, req, 0, |b.periods|).Ok?
  {
  }
}
