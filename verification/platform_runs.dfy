/** Serial runs over stock, ledger and purchase documents together. */
module PlatformRuns {
  import opened Wrappers
  import opened Decimals
  import opened Ledger
  import opened LedgerLaws
  import opened Purchases
  import Stock
  import StockRuns

  datatype Op =
    | PostJournal(req: JournalRequest)
    | Receive(receipt: SettlementRequest)
    | Pay(payment: SettlementRequest)
    | NewPeriod(start: int, end: int)
    | SetLock(period: int, locked: bool)
    | MoveStock(stock: StockRuns.Op)
    | NewDocument(d: Document)
    | NewLine(doc: int, line: Purchases.LineRequest)
    | FinalizeDoc(id: int)

  /** One transaction: who acts, when, and which period an ambiguous lookup would return. */
  datatype Act = Act(who: Buyer, now: int, scan: nat, op: Op)

  function OfBooks(w: World, r: Result<Books, LedgerError>): World {
    if r.Ok? then w.(books := r.value) else w
  }

  function OfWorld(w: World, r: Result<World, PurchaseError>): World {
    if r.Ok? then r.value else w
  }

  /** A failed transaction changes nothing. */
  function Next(cat: Stock.Catalogue, w: World, a: Act): World
    requires cat.Valid()
  {
    match a.op
    case PostJournal(req) => OfBooks(w, Post(w.books, a.who.accounting, req, a.now, a.scan))
    case Receive(p) => OfBooks(w, RecordReceipt(w.books, a.who.accounting, p, a.now, a.scan))
    case Pay(p) => OfBooks(w, RecordPayment(w.books, a.who.accounting, p, a.now, a.scan))
    case NewPeriod(start, end) => OfBooks(w, CreatePeriod(w.books, a.who.accounting, start, end))
    case SetLock(id, locked) => OfBooks(w, SetPeriodLock(w.books, a.who.accounting, id, locked))
    case MoveStock(op) => w.(stock := StockRuns.Next(cat, w.stock, op))
    case NewDocument(d) => OfWorld(w, CreateDocument(w, a.who, d))
    case NewLine(id, p) => OfWorld(w, AddLine(w, a.who, id, p))
    case FinalizeDoc(id) => OfWorld(w, Finalize(cat, w, a.who, id, a.now, a.scan))
  }

  function Run(cat: Stock.Catalogue, w: World, acts: seq<Act>): World
    requires cat.Valid()
    decreases |acts|
  {
    if acts == [] then w else Run(cat, Next(cat, w, acts[0]), acts[1..])
  }

  // ---------- The ledger over every run ----------

  /** A transaction only grows the books, unless it is about a period. */
  lemma {:induction false} ActGrows(cat: Stock.Catalogue, w: World, a: Act)
    requires cat.Valid() && !a.op.NewPeriod? && !a.op.SetLock?
    ensures Grows(w.books, Next(cat, w, a).books, a.who.accounting)
  {
    var b, who := w.books, a.who.accounting;
    match a.op
    case PostJournal(req) =>
      if Post(b, who, req, a.now, a.scan).Ok? {
        PostingGrows(b, who, req, a.now, a.scan, Post(b, who, req, a.now, a.scan).value);
      }
    case Receive(p) => ReceiptBooksTheCustomer(b, who, p, a.now, a.scan);
    case Pay(p) => PaymentBooksTheSupplier(b, who, p, a.now, a.scan);
    case FinalizeDoc(id) =>
      var r := Finalize(cat, w, a.who, id, a.now, a.scan);
      if r.Ok? && Payable(w.docs[id]) {
        PostingGrows(b, who, JournalFor(w.docs[id], id), a.now, a.scan, r.value.books);
      }
    case _ =>
  }

  lemma {:induction false} ActKeepsJournals(cat: Stock.Catalogue, w: World, a: Act)
    requires cat.Valid() && BooksSound(w.books)
    ensures w.books.journals <= Next(cat, w, a).books.journals && BooksSound(Next(cat, w, a).books)
  {
    var b, b' := w.books, Next(cat, w, a).books;
    if !a.op.NewPeriod? && !a.op.SetLock? {
      ActGrows(cat, w, a);
      forall j <- b'.journals ensures JournalSound(j) {
        var i :| 0 <= i < |b'.journals| && b'.journals[i] == j;
        if i < |b.journals| { assert b.journals[i] == j; }
      }
    }
  }

  /** Over every run, through every posting route: journals already in the ledger are never changed
    * or removed, each has at least two one-sided lines and balances, and so does the whole ledger. */
  lemma {:induction false} LedgerStaysSound(cat: Stock.Catalogue, w: World, acts: seq<Act>)
    requires cat.Valid() && BooksSound(w.books)
    ensures var w' := Run(cat, w, acts);
      && w.books.journals <= w'.books.journals
      && BooksSound(w'.books)
      && AllDebits(w'.books.journals) == AllCredits(w'.books.journals)
    decreases |acts|
  {
    if acts != [] {
      ActKeepsJournals(cat, w, acts[0]);
      LedgerStaysSound(cat, Next(cat, w, acts[0]), acts[1..]);
    } else {
      LedgerBalances(w.books.journals);
    }
  }

  // ---------- Locked periods ----------

  /** A caller creating a period can see whether it overlaps a given one. */
  predicate KeepsOff(p: Period, op: Op) {
    op.NewPeriod? && op.start <= op.end ==> Disjoint(p, Period(op.start, op.end, false))
  }

  lemma {:induction false} ActLeavesPeriodShut(cat: Stock.Catalogue, w: World, a: Act, i: nat)
    requires cat.Valid() && Shut(w.books.periods, i) && !a.who.accounting.mayOverride
             && KeepsOff(w.books.periods[i], a.op)
    ensures Shut(Next(cat, w, a).books.periods, i) && Undisturbed(w.books, Next(cat, w, a).books, i)
    ensures Next(cat, w, a).books.periods[i] == w.books.periods[i]
  {
    var b, b' := w.books, Next(cat, w, a).books;
    if !a.op.NewPeriod? && !a.op.SetLock? {
      ActGrows(cat, w, a);
      PostingStaysOut(b, b', a.who.accounting, i);
    }
  }

  /** In every run of users without the override that lays no period over a locked one, that period
    * stays locked and no journal dated inside it is ever added, through any posting route. */
  lemma {:induction false} LockedPeriodStaysShut(cat: Stock.Catalogue, w: World, acts: seq<Act>, i: nat)
    requires cat.Valid() && Shut(w.books.periods, i)
    requires forall a <- acts :: !a.who.accounting.mayOverride && KeepsOff(w.books.periods[i], a.op)
    ensures Shut(Run(cat, w, acts).books.periods, i)
    ensures Undisturbed(w.books, Run(cat, w, acts).books, i)
    decreases |acts|
  {
    if acts != [] {
      var next := Next(cat, w, acts[0]);
      assert KeepsOff(w.books.periods[i], acts[0].op);
      ActLeavesPeriodShut(cat, w, acts[0], i);
      LockedPeriodStaysShut(cat, next, acts[1..], i);
      var last := Run(cat, w, acts);
      forall j | |w.books.journals| <= j < |last.books.journals|
        ensures !w.books.periods[i].Contains(last.books.journals[j].date)
      {
        if j < |next.books.journals| { assert last.books.journals[j] == next.books.journals[j]; }
      }
    }
  }

  // ---------- Each finalization posts once ----------

  const PURCHASE_DOCUMENT := "purchase_document"

  function JournalsOf(js: seq<Journal>, id: int): nat {
    if js == [] then 0
    else JournalsOf(js[..|js| - 1], id) + (if js[|js| - 1].source == Source(PURCHASE_DOCUMENT, Some(id)) then 1 else 0)
  }

  function MovementsOf(ms: seq<Stock.Movement>, id: int): nat {
    if ms == [] then 0
    else MovementsOf(ms[..|ms| - 1], id)
         + (if ms[|ms| - 1].reference == Stock.Reference(PURCHASE_DOCUMENT, Some(id)) then 1 else 0)
  }

  predicate IsFinalized(docs: seq<Document>, id: int) {
    0 <= id < |docs| && docs[id].status == Finalized
  }

  /** Each finalized document has posted one movement per line if it affects stock and one journal
    * if it has a positive total to book; nothing else has posted anything. */
  ghost predicate PostedOnce(w: World) {
    forall id: int :: PostedOnceFor(w, id)
  }

  predicate PostedOnceFor(w: World, id: int) {
    && JournalsOf(w.books.journals, id) == (if IsFinalized(w.docs, id) && Payable(w.docs[id]) then 1 else 0)
    && MovementsOf(w.stock.movements, id) ==
         if IsFinalized(w.docs, id) && StockAffecting(w.docs[id]) then |w.docs[id].lines| else 0
  }

  /** Direct posts and stock requests name what they are for; purchase documents post for themselves. */
  predicate NamesNoDocument(op: Op) {
    && (op.PostJournal? ==> op.req.source.kind != PURCHASE_DOCUMENT)
    && (op.MoveStock? ==> forall p <- StockRuns.Requests(op.stock) :: p.reference.kind != PURCHASE_DOCUMENT)
  }

  lemma {:induction false} JournalsOfAppend(js: seq<Journal>, j: Journal, id: int)
    ensures JournalsOf(js + [j], id)
            == JournalsOf(js, id) + (if j.source == Source(PURCHASE_DOCUMENT, Some(id)) then 1 else 0)
  {
    assert (js + [j])[..|js|] == js;
  }

  lemma {:induction false} MovementsOfAppend(ms: seq<Stock.Movement>, m: Stock.Movement, id: int)
    ensures MovementsOf(ms + [m], id)
            == MovementsOf(ms, id) + (if m.reference == Stock.Reference(PURCHASE_DOCUMENT, Some(id)) then 1 else 0)
  {
    assert (ms + [m])[..|ms|] == ms;
  }

  lemma {:induction false} RecordedMovements(cat: Stock.Catalogue, t: Stock.Tables, ps: seq<Stock.MovementRequest>,
                                             doc: Uuid, id: int)
    requires cat.Valid() && Stock.RecordAll(cat, t, ps).Ok?
    requires forall p <- ps :: p.reference == Stock.Reference(PURCHASE_DOCUMENT, Some(doc))
    ensures MovementsOf(Stock.RecordAll(cat, t, ps).value.movements, id)
            == MovementsOf(t.movements, id) + (if id == doc then |ps| else 0)
    decreases |ps|
  {
    if ps != [] {
      var next := Stock.RecordMovement(cat, t, ps[0]).value;
      MovementsOfAppend(t.movements, next.movements[|t.movements|], id);
      RecordedMovements(cat, next, ps[1..], doc, id);
    }
  }

  /** What a list of movements appends to the ledger. */
  lemma {:induction false} RecordedEntries(cat: Stock.Catalogue, t: Stock.Tables, ps: seq<Stock.MovementRequest>)
    requires cat.Valid() && Stock.RecordAll(cat, t, ps).Ok?
    ensures var ms, n := Stock.RecordAll(cat, t, ps).value.movements, |t.movements|;
      && |ms| == n + |ps| && t.movements <= ms
      && forall i | 0 <= i < |ps|
          :: Stock.Resolve(cat, ps[i]).Ok? && ms[n + i] == Stock.NewMovement(ps[i], Stock.Resolve(cat, ps[i]).value)
    decreases |ps|
  {
    if ps != [] {
      var next := Stock.RecordMovement(cat, t, ps[0]).value;
      assert next.movements == t.movements + [Stock.NewMovement(ps[0], Stock.Resolve(cat, ps[0]).value)];
      hide Stock.RecordMovement, Stock.NewMovement, Stock.Resolve;
      RecordedEntries(cat, next, ps[1..]);
      var ms, n := Stock.RecordAll(cat, t, ps).value.movements, |t.movements|;
      forall i | 0 <= i < |ps|
        ensures Stock.Resolve(cat, ps[i]).Ok? && ms[n + i] == Stock.NewMovement(ps[i], Stock.Resolve(cat, ps[i]).value)
      {
        if i > 0 { assert ps[1..][i - 1] == ps[i]; } else { assert ms[n] == next.movements[n]; }
      }
    }
  }

  /** Exactly when the journal of a document posts: its total, coming out of columns, always survives
    * storage, so only the period and the two accounts can stand in the way. */
  lemma {:induction false} PayablePosts(b: Books, who: Buyer, d: Document, id: int, now: int, scan: nat)
    ensures PostPayable(b, who, d, id, now, scan).Ok? <==>
            (Payable(d) ==>
               && !Barred(b.periods, who.accounting, d.date, scan)
               && PURCHASES in b.accounts && ACCOUNTS_PAYABLE in b.accounts)
  {
    if Payable(d) {
      ColumnRoundTrip(Total(d.lines));
      MirroredPosts(b, who.accounting, JournalFor(d, id), now, scan, FromColumn(Total(d.lines)));
    }
  }

  /** Exactly when a finalization goes through, and what it appends: the document becomes final, each
    * line of a stock-affecting one posts its movement, and a payable one posts its two-line journal. */
  lemma {:induction false} FinalizePosts(cat: Stock.Catalogue, w: World, who: Buyer, id: int, now: int, scan: nat)
    requires cat.Valid()
    ensures Finalize(cat, w, who, id, now, scan).Ok? <==>
      && who.mayFinalize && 0 <= id < |w.docs| && w.docs[id].status == Draft && w.docs[id].lines != []
      && Stock.RecordAll(cat, w.stock, MovementsFor(w.docs[id], id)).Ok?
      && (Payable(w.docs[id]) ==>
            && !Barred(w.books.periods, who.accounting, w.docs[id].date, scan)
            && PURCHASES in w.books.accounts && ACCOUNTS_PAYABLE in w.books.accounts)
    ensures Finalize(cat, w, who, id, now, scan).Ok?
            ==> FinalizeAppends(cat, w, id, Finalize(cat, w, who, id, now, scan).value)
  {
    if who.mayFinalize && 0 <= id < |w.docs| {
      PayablePosts(w.books, who, w.docs[id], id, now, scan);
      if Finalize(cat, w, who, id, now, scan).Ok? {
        FinalizedAppends(cat, w, who, id, now, scan, Finalize(cat, w, who, id, now, scan).value);
      }
    }
  }

  /** What a finalization leaves behind. */
  predicate FinalizeAppends(cat: Stock.Catalogue, w: World, id: int, w': World)
    requires cat.Valid() && 0 <= id < |w.docs|
  {
    var d, ps := w.docs[id], MovementsFor(w.docs[id], id);
    && w'.docs == w.docs[id := d.(status := Finalized)]
    && Stock.RecordAll(cat, w.stock, ps) == Ok(w'.stock)
    && |w'.stock.movements| == |w.stock.movements| + |ps| && w.stock.movements <= w'.stock.movements
    && (forall i | 0 <= i < |ps| :: Stock.Resolve(cat, ps[i]).Ok?
          && w'.stock.movements[|w.stock.movements| + i] == Stock.NewMovement(ps[i], Stock.Resolve(cat, ps[i]).value))
    && if !Payable(d) then w'.books == w.books
       else
         && |w'.books.journals| == |w.books.journals| + 1 && w.books.journals <= w'.books.journals
         && w'.books.payments == w.books.payments && w'.books.receipts == w.books.receipts
         && var j := w'.books.journals[|w.books.journals|];
            j == Journal(Source(PURCHASE_DOCUMENT, Some(id)), d.date, PayableLines(d))
  }

  /** A finalization is its stock part, its journal part and the new status. */
  lemma {:induction false} FinalizedParts(cat: Stock.Catalogue, w: World, who: Buyer, id: int, now: int, scan: nat,
                                          w': World)
    requires cat.Valid() && Finalize(cat, w, who, id, now, scan) == Ok(w')
    ensures 0 <= id < |w.docs| && w.docs[id].status == Draft
    ensures w'.docs == w.docs[id := w.docs[id].(status := Finalized)]
    ensures Stock.RecordAll(cat, w.stock, MovementsFor(w.docs[id], id)) == Ok(w'.stock)
    ensures PostPayable(w.books, who, w.docs[id], id, now, scan) == Ok(w'.books)
  {
    hide Stock.RecordAll, MovementsFor, PostPayable;
  }

  lemma {:induction false} FinalizedAppends(cat: Stock.Catalogue, w: World, who: Buyer, id: int, now: int, scan: nat,
                                            w': World)
    requires cat.Valid() && Finalize(cat, w, who, id, now, scan) == Ok(w')
    ensures 0 <= id < |w.docs| && FinalizeAppends(cat, w, id, w')
  {
    hide Finalize, Stock.Resolve, Stock.NewMovement, Stock.RecordAll, MovementsFor, PostPayable, Payable;
    FinalizedParts(cat, w, who, id, now, scan, w');
    RecordedEntries(cat, w.stock, MovementsFor(w.docs[id], id));
    if Payable(w.docs[id]) {
      PayableAppends(w.books, who, w.docs[id], id, now, scan, w'.books);
    } else {
      NothingPayable(w.books, who, w.docs[id], id, now, scan);
    }
  }

  lemma {:induction false} NothingPayable(b: Books, who: Buyer, d: Document, id: int, now: int, scan: nat)
    requires !Payable(d)
    ensures PostPayable(b, who, d, id, now, scan) == Ok(b)
  {
  }

  lemma {:induction false} PayableAppends(b: Books, who: Buyer, d: Document, id: int, now: int, scan: nat, b': Books)
    requires Payable(d) && PostPayable(b, who, d, id, now, scan) == Ok(b')
    ensures |b'.journals| == |b.journals| + 1 && b.journals <= b'.journals
    ensures b'.payments == b.payments && b'.receipts == b.receipts
    ensures var j := b'.journals[|b.journals|];
            j == Journal(Source(PURCHASE_DOCUMENT, Some(id)), d.date, PayableLines(d))
  {
    PostingGrows(b, who.accounting, JournalFor(d, id), now, scan, b');
    ColumnRoundTrip(Total(d.lines));
    ColumnRoundTrip(0);
    assert StoredLines(JournalFor(d, id).lines) == PayableLines(d);
  }

  function DocumentJournal(d: Document, id: int): Journal {
    Journal(Source(PURCHASE_DOCUMENT, Some(id)), d.date, PayableLines(d))
  }

  /** The journal part of a finalization appends the document's journal if it has one to post. */
  lemma {:induction false} PostedPayable(b: Books, who: Buyer, d: Document, id: int, now: int, scan: nat, b': Books)
    requires PostPayable(b, who, d, id, now, scan) == Ok(b')
    ensures b'.journals == b.journals + if Payable(d) then [DocumentJournal(d, id)] else []
    ensures b'.payments == b.payments && b'.receipts == b.receipts
  {
    hide PostPayable, PayableLines, Payable;
    if Payable(d) {
      PayableAppends(b, who, d, id, now, scan, b');
      assert b'.journals == b.journals + [b'.journals[|b.journals|]];
    } else {
      NothingPayable(b, who, d, id, now, scan);
    }
  }

  /** The journal lines a finalized document leaves behind. */
  function PayableLines(d: Document): seq<JournalLine> {
    var total := Total(d.lines);
    if ReducesPayable(d) then [JournalLine(PURCHASES, None, 0, total),
                               JournalLine(ACCOUNTS_PAYABLE, Some(d.supplier), total, 0)]
    else [JournalLine(PURCHASES, None, total, 0), JournalLine(ACCOUNTS_PAYABLE, Some(d.supplier), 0, total)]
  }

  lemma {:induction false} FinalizePostsOnce(cat: Stock.Catalogue, w: World, who: Buyer, doc: int, now: int, scan: nat,
                                             w': World, id: int)
    requires cat.Valid() && Finalize(cat, w, who, doc, now, scan) == Ok(w') && PostedOnceFor(w, id)
    ensures PostedOnceFor(w', id)
  {
    FinalizeCounts(cat, w, who, doc, now, scan, w', id);
    FinalizedParts(cat, w, who, doc, now, scan, w');
    hide Finalize, MovementsFor, Stock.RecordAll, PostPayable, Total, JournalsOf, MovementsOf;
  }

  lemma {:induction false} FinalizeCounts(cat: Stock.Catalogue, w: World, who: Buyer, doc: int, now: int, scan: nat,
                                          w': World, id: int)
    requires cat.Valid() && Finalize(cat, w, who, doc, now, scan) == Ok(w')
    ensures 0 <= doc < |w.docs|
    ensures JournalsOf(w'.books.journals, id)
            == JournalsOf(w.books.journals, id) + if id == doc && Payable(w.docs[doc]) then 1 else 0
    ensures MovementsOf(w'.stock.movements, id)
            == MovementsOf(w.stock.movements, id)
               + if id == doc && StockAffecting(w.docs[doc]) then |w.docs[doc].lines| else 0
  {
    FinalizedParts(cat, w, who, doc, now, scan, w');
    hide Finalize, Stock.RecordAll, PostPayable, Payable, JournalsOf, MovementsOf;
    RecordedMovements(cat, w.stock, MovementsFor(w.docs[doc], doc), doc, id);
    PayableCounts(w.books, who, w.docs[doc], doc, now, scan, w'.books, id);
  }

  lemma {:induction false} PayableCounts(b: Books, who: Buyer, d: Document, doc: int, now: int, scan: nat, b': Books,
                                         id: int)
    requires PostPayable(b, who, d, doc, now, scan) == Ok(b')
    ensures JournalsOf(b'.journals, id) == JournalsOf(b.journals, id) + if id == doc && Payable(d) then 1 else 0
  {
    PostedPayable(b, who, d, doc, now, scan, b');
    hide PostPayable, PayableLines, Payable, JournalsOf;
    if Payable(d) { JournalsOfAppend(b.journals, DocumentJournal(d, doc), id); }
  }

  /** Another module's journal is no document's. */
  lemma {:induction false} OtherJournal(w: World, w': World)
    requires PostedOnce(w) && w'.docs == w.docs && w'.stock == w.stock
    requires |w'.books.journals| == |w.books.journals| + 1 && w.books.journals <= w'.books.journals
    requires w'.books.journals[|w.books.journals|].source.kind != PURCHASE_DOCUMENT
    ensures PostedOnce(w')
  {
    var j := w'.books.journals[|w.books.journals|];
    assert w'.books.journals == w.books.journals + [j];
    forall id: int ensures PostedOnceFor(w', id) {
      assert PostedOnceFor(w, id);
      JournalsOfAppend(w.books.journals, j, id);
    }
  }

  lemma {:induction false} OtherMovements(cat: Stock.Catalogue, t: Stock.Tables, ws: seq<StockRuns.Write>,
                                          t': Stock.Tables, id: int)
    requires cat.Valid() && StockRuns.Leads(cat, t, ws, t')
    requires forall x <- ws | x.Booked? :: x.p.reference.kind != PURCHASE_DOCUMENT
    ensures MovementsOf(t'.movements, id) == MovementsOf(t.movements, id)
    decreases |ws|
  {
    if ws != [] {
      var next := StockRuns.Perform(cat, t, ws[0]).value;
      if ws[0].Booked? { MovementsOfAppend(t.movements, next.movements[|t.movements|], id); }
      OtherMovements(cat, next, ws[1..], t', id);
    }
  }

  lemma {:induction false} StockOpPostsNothing(cat: Stock.Catalogue, w: World, a: Act)
    requires cat.Valid() && a.op.MoveStock? && NamesNoDocument(a.op) && PostedOnce(w)
    ensures PostedOnce(Next(cat, w, a))
  {
    StockRuns.ApplyLeads(cat, w.stock, a.op.stock);
    forall id: int ensures PostedOnceFor(Next(cat, w, a), id) {
      assert PostedOnceFor(w, id);
      OtherMovements(cat, w.stock, StockRuns.WritesOf(cat, w.stock, a.op.stock),
                     StockRuns.Next(cat, w.stock, a.op.stock), id);
    }
  }

  lemma {:induction false} JournalOpPostsNothing(cat: Stock.Catalogue, w: World, a: Act)
    requires cat.Valid() && (a.op.PostJournal? || a.op.Receive? || a.op.Pay?) && NamesNoDocument(a.op) && PostedOnce(w)
    ensures PostedOnce(Next(cat, w, a))
  {
    var b, who, w' := w.books, a.who.accounting, Next(cat, w, a);
    assert "receipt" != PURCHASE_DOCUMENT && "payment" != PURCHASE_DOCUMENT;
    match a.op {
      case PostJournal(req) =>
        if Post(b, who, req, a.now, a.scan).Ok? { PostingGrows(b, who, req, a.now, a.scan, w'.books); }
      case Receive(p) => ReceiptBooksTheCustomer(b, who, p, a.now, a.scan);
      case Pay(p) => PaymentBooksTheSupplier(b, who, p, a.now, a.scan);
    }
    if w'.books.journals != b.journals { OtherJournal(w, w'); } else { SamePosting(w, w'); }
  }

  lemma {:induction false} SamePosting(w: World, w': World)
    requires PostedOnce(w) && w'.stock.movements == w.stock.movements && w'.books.journals == w.books.journals
    requires forall id: int :: IsFinalized(w'.docs, id) <==> IsFinalized(w.docs, id)
    requires forall id: int | IsFinalized(w.docs, id) && IsFinalized(w'.docs, id) :: w'.docs[id] == w.docs[id]
    ensures PostedOnce(w')
  {
    forall id: int ensures PostedOnceFor(w', id) { assert PostedOnceFor(w, id); }
  }

  lemma {:induction false} ActPostsOnce(cat: Stock.Catalogue, w: World, a: Act)
    requires cat.Valid() && NamesNoDocument(a.op) && PostedOnce(w)
    ensures PostedOnce(Next(cat, w, a))
  {
    if a.op.PostJournal? || a.op.Receive? || a.op.Pay? {
      JournalOpPostsNothing(cat, w, a);
    } else if a.op.MoveStock? {
      StockOpPostsNothing(cat, w, a);
    } else if a.op.FinalizeDoc? && Finalize(cat, w, a.who, a.op.id, a.now, a.scan).Ok? {
      forall id: int ensures PostedOnceFor(Next(cat, w, a), id) {
        assert PostedOnceFor(w, id);
        FinalizePostsOnce(cat, w, a.who, a.op.id, a.now, a.scan, Next(cat, w, a), id);
      }
    } else {
      SamePosting(w, Next(cat, w, a));
    }
  }

  /** Over every serial run whose direct posts and stock requests do not pass themselves off as a
    * purchase document's, each finalized document has posted its stock and journal effects exactly
    * once, and no other document has posted any. */
  lemma {:induction false} FinalizedPostedOnce(cat: Stock.Catalogue, w: World, acts: seq<Act>)
    requires cat.Valid() && PostedOnce(w) && forall a <- acts :: NamesNoDocument(a.op)
    ensures PostedOnce(Run(cat, w, acts))
    decreases |acts|
  {
    if acts != [] {
      assert NamesNoDocument(acts[0].op);
      ActPostsOnce(cat, w, acts[0]);
      FinalizedPostedOnce(cat, Next(cat, w, acts[0]), acts[1..]);
    }
  }

  // ---------- Documents over every run ----------

  /** What can happen to a document: a draft gains lines or becomes final, and nothing else. */
  predicate DocumentKept(before: Document, after: Document) {
    && before.lines <= after.lines
    && after == before.(lines := after.lines, status := after.status)
    && (before.status != Draft ==> after == before)
  }

  predicate DocumentsKept(before: seq<Document>, after: seq<Document>) {
    |before| <= |after| && forall i | 0 <= i < |before| :: DocumentKept(before[i], after[i])
  }

  lemma {:induction false} DocumentsKeptTransitive(a: seq<Document>, b: seq<Document>, c: seq<Document>)
    requires DocumentsKept(a, b) && DocumentsKept(b, c)
    ensures DocumentsKept(a, c)
  {
    forall i | 0 <= i < |a| ensures DocumentKept(a[i], c[i]) {
      assert DocumentKept(a[i], b[i]) && DocumentKept(b[i], c[i]);
    }
  }

  lemma {:induction false} ActKeepsDocuments(cat: Stock.Catalogue, w: World, a: Act)
    requires cat.Valid()
    ensures DocumentsKept(w.docs, Next(cat, w, a).docs)
  {
    if a.op.FinalizeDoc? {
      var r := Finalize(cat, w, a.who, a.op.id, a.now, a.scan);
      if r.Ok? { assert r.value.docs == w.docs[a.op.id := w.docs[a.op.id].(status := Finalized)]; }
    }
  }

  /** Over every run documents are never removed, keep their type, supplier, warehouse, date and
    * currency, only gain lines while they are drafts, and never change once they are final. */
  lemma {:induction false} FinalDocumentsStay(cat: Stock.Catalogue, w: World, acts: seq<Act>)
    requires cat.Valid()
    ensures DocumentsKept(w.docs, Run(cat, w, acts).docs)
    decreases |acts|
  {
    if acts != [] {
      var next := Next(cat, w, acts[0]);
      ActKeepsDocuments(cat, w, acts[0]);
      FinalDocumentsStay(cat, next, acts[1..]);
      DocumentsKeptTransitive(w.docs, next.docs, Run(cat, w, acts).docs);
    }
  }

  // ---------- A supplier's balance ----------

  function LinesBalance(lines: seq<JournalLine>, party: Uuid): Column {
    if lines == [] then 0
    else LinesBalance(lines[..|lines| - 1], party)
         + (if lines[|lines| - 1].party == Some(party) then lines[|lines| - 1].debit - lines[|lines| - 1].credit else 0)
  }

  /** Debits minus credits over all journal lines that carry the party. */
  function PartyBalance(js: seq<Journal>, party: Uuid): Column {
    if js == [] then 0 else PartyBalance(js[..|js| - 1], party) + LinesBalance(js[|js| - 1].lines, party)
  }

  /** What was settled with the party: paid to it, or received from it. */
  function SettledWith(rows: seq<Settlement>, party: Uuid): Column {
    if rows == [] then 0
    else SettledWith(rows[..|rows| - 1], party)
         + (if rows[|rows| - 1].party == party then rows[|rows| - 1].amount else 0)
  }

  /** What a document contributes to its supplier's balance. */
  function Effect(d: Document, party: Uuid): Column {
    if d.supplier != party || d.status != Finalized || !Payable(d) then 0
    else if ReducesPayable(d) then Total(d.lines) else -Total(d.lines)
  }

  function Effects(docs: seq<Document>, party: Uuid): Column {
    if docs == [] then 0 else Effects(docs[..|docs| - 1], party) + Effect(docs[|docs| - 1], party)
  }

  /** Payments and reducing documents on one side, receipts and the other finalized documents on the
    * other. */
  predicate SupplierSettled(w: World, party: Uuid) {
    PartyBalance(w.books.journals, party)
    == SettledWith(w.books.payments, party) - SettledWith(w.books.receipts, party) + Effects(w.docs, party)
  }

  /** Direct posts book nothing on the party. */
  predicate NamesNoParty(op: Op, party: Uuid) {
    op.PostJournal? ==> forall l <- op.req.lines :: l.party != Some(party)
  }

  lemma {:induction false} PartyBalanceAppend(js: seq<Journal>, j: Journal, party: Uuid)
    ensures PartyBalance(js + [j], party) == PartyBalance(js, party) + LinesBalance(j.lines, party)
  {
    assert (js + [j])[..|js|] == js;
  }

  lemma {:induction false} TwoLinesBalance(a: JournalLine, b: JournalLine, party: Uuid)
    ensures LinesBalance([a, b], party) == (if a.party == Some(party) then a.debit - a.credit else 0)
                                           + (if b.party == Some(party) then b.debit - b.credit else 0)
  {
    assert [a, b][..1] == [a] && [a][..0] == [];
    assert LinesBalance([a], party) == if a.party == Some(party) then a.debit - a.credit else 0;
  }

  lemma {:induction false} EffectsUpdate(docs: seq<Document>, id: nat, d: Document, party: Uuid)
    requires id < |docs|
    ensures Effects(docs[id := d], party) == Effects(docs, party) - Effect(docs[id], party) + Effect(d, party)
    decreases |docs|
  {
    var n := |docs| - 1;
    if id == n {
      assert docs[id := d][..n] == docs[..n];
    } else {
      assert docs[id := d][..n] == docs[..n][id := d];
      EffectsUpdate(docs[..n], id, d, party);
    }
  }

  lemma {:induction false} PayableLinesBalance(d: Document, party: Uuid)
    requires Payable(d)
    ensures LinesBalance(PayableLines(d), party) == Effect(d.(status := Finalized), party)
  {
    var ls := PayableLines(d);
    assert ls == [ls[0], ls[1]];
    TwoLinesBalance(ls[0], ls[1], party);
  }

  /** A finalization moves a party's balance by what the document contributes to it. */
  lemma {:induction false} FinalizeMovesBalance(cat: Stock.Catalogue, w: World, who: Buyer, id: int, now: int,
                                                scan: nat, w': World, party: Uuid)
    requires cat.Valid() && Finalize(cat, w, who, id, now, scan) == Ok(w')
    ensures 0 <= id < |w.docs| && w'.docs == w.docs[id := w.docs[id].(status := Finalized)]
    ensures w'.books.payments == w.books.payments && w'.books.receipts == w.books.receipts
    ensures PartyBalance(w'.books.journals, party) == PartyBalance(w.books.journals, party) + Effect(w'.docs[id], party)
  {
    FinalizedParts(cat, w, who, id, now, scan, w');
    var d := w.docs[id];
    PostedPayable(w.books, who, d, id, now, scan, w'.books);
    hide Finalize, MovementsFor, Stock.RecordAll, PostPayable, PayableLines, Effects, PartyBalance;
    if Payable(d) {
      PartyBalanceAppend(w.books.journals, DocumentJournal(d, id), party);
      PayableLinesBalance(d, party);
    }
  }

  lemma {:induction false} FinalizeSettles(cat: Stock.Catalogue, w: World, who: Buyer, id: int, now: int, scan: nat,
                                           w': World, party: Uuid)
    requires cat.Valid() && Finalize(cat, w, who, id, now, scan) == Ok(w') && SupplierSettled(w, party)
    ensures SupplierSettled(w', party)
  {
    hide Finalize, PartyBalance, Effects;
    FinalizedParts(cat, w, who, id, now, scan, w');
    var d := w.docs[id];
    FinalizeMovesBalance(cat, w, who, id, now, scan, w', party);
    EffectsUpdate(w.docs, id, d.(status := Finalized), party);
  }

  lemma {:induction false} PaymentSettles(w: World, who: Principal, p: SettlementRequest, now: int, scan: nat,
                                          party: Uuid)
    requires RecordPayment(w.books, who, p, now, scan).Ok? && SupplierSettled(w, party)
    ensures SupplierSettled(w.(books := RecordPayment(w.books, who, p, now, scan).value), party)
  {
    PaymentBooksTheSupplier(w.books, who, p, now, scan);
    var b' := RecordPayment(w.books, who, p, now, scan).value;
    var j := b'.journals[|w.books.journals|];
    PartyBalanceAppend(w.books.journals, j, party);
    TwoLinesBalance(j.lines[0], j.lines[1], party);
    assert b'.payments[..|w.books.payments|] == w.books.payments;
  }

  lemma {:induction false} ReceiptSettles(w: World, who: Principal, p: SettlementRequest, now: int, scan: nat,
                                          party: Uuid)
    requires RecordReceipt(w.books, who, p, now, scan).Ok? && SupplierSettled(w, party)
    ensures SupplierSettled(w.(books := RecordReceipt(w.books, who, p, now, scan).value), party)
  {
    ReceiptBooksTheCustomer(w.books, who, p, now, scan);
    var b' := RecordReceipt(w.books, who, p, now, scan).value;
    var j := b'.journals[|w.books.journals|];
    PartyBalanceAppend(w.books.journals, j, party);
    TwoLinesBalance(j.lines[0], j.lines[1], party);
    assert b'.receipts[..|w.books.receipts|] == w.books.receipts;
  }

  lemma {:induction false} OtherLinesBalance(lines: seq<Ledger.LineRequest>, party: Uuid)
    requires forall l <- lines :: l.party != Some(party)
    ensures LinesBalance(StoredLines(lines), party) == 0
  {
    if lines != [] {
      var n := |lines| - 1;
      assert lines[n] in lines && forall l <- lines[..n] :: l in lines;
      OtherLinesBalance(lines[..n], party);
      assert StoredLines(lines)[..n] == StoredLines(lines[..n]);
    }
  }

  lemma {:induction false} DirectPostSettles(w: World, who: Principal, req: JournalRequest, now: int, scan: nat,
                                             party: Uuid)
    requires Post(w.books, who, req, now, scan).Ok? && SupplierSettled(w, party)
             && forall l <- req.lines :: l.party != Some(party)
    ensures SupplierSettled(w.(books := Post(w.books, who, req, now, scan).value), party)
  {
    var b' := Post(w.books, who, req, now, scan).value;
    PostingGrows(w.books, who, req, now, scan, b');
    hide Post, PostTx, Commit, LinesBalance, PartyBalance, SettledWith, Effects, JournalSound, Barred;
    var j := b'.journals[|w.books.journals|];
    assert b'.journals == w.books.journals + [j];
    PartyBalanceAppend(w.books.journals, j, party);
    OtherLinesBalance(req.lines, party);
  }

  lemma {:induction false} DocumentActSettles(cat: Stock.Catalogue, w: World, a: Act, party: Uuid)
    requires cat.Valid() && SupplierSettled(w, party) && (a.op.NewDocument? || a.op.NewLine? || a.op.FinalizeDoc?)
    ensures SupplierSettled(Next(cat, w, a), party)
  {
    hide Finalize, PartyBalance, SettledWith;
    match a.op {
      case FinalizeDoc(id) =>
        var r := Finalize(cat, w, a.who, id, a.now, a.scan);
        if r.Ok? { FinalizeSettles(cat, w, a.who, id, a.now, a.scan, r.value, party); }
      case NewDocument(d) =>
        var w' := Next(cat, w, a);
        if w' != w { assert w'.docs[..|w.docs|] == w.docs; }
      case NewLine(id, p) =>
        var r := AddLine(w, a.who, id, p);
        if r.Ok? { EffectsUpdate(w.docs, id, r.value.docs[id], party); }
    }
  }

  lemma {:induction false} ActSettles(cat: Stock.Catalogue, w: World, a: Act, party: Uuid)
    requires cat.Valid() && NamesNoParty(a.op, party) && SupplierSettled(w, party)
    ensures SupplierSettled(Next(cat, w, a), party)
  {
    if a.op.NewDocument? || a.op.NewLine? || a.op.FinalizeDoc? {
      DocumentActSettles(cat, w, a, party);
    } else {
      hide SupplierSettled;
      var b, who := w.books, a.who.accounting;
      if a.op.Pay? {
        if RecordPayment(b, who, a.op.payment, a.now, a.scan).Ok? {
          PaymentSettles(w, who, a.op.payment, a.now, a.scan, party);
        }
      } else if a.op.Receive? {
        if RecordReceipt(b, who, a.op.receipt, a.now, a.scan).Ok? {
          ReceiptSettles(w, who, a.op.receipt, a.now, a.scan, party);
        }
      } else if a.op.PostJournal? {
        if Post(b, who, a.op.req, a.now, a.scan).Ok? { DirectPostSettles(w, who, a.op.req, a.now, a.scan, party); }
      } else {
        SettledAlike(w, Next(cat, w, a), party);
      }
    }
  }

  lemma {:induction false} SettledAlike(w: World, w': World, party: Uuid)
    requires SupplierSettled(w, party) && w'.docs == w.docs && w'.books.journals == w.books.journals
    requires w'.books.payments == w.books.payments && w'.books.receipts == w.books.receipts
    ensures SupplierSettled(w', party)
  {
  }

  /** Over every serial run whose direct posts leave the party alone, its ledger balance is the payments
    * plus the finalized returns and debit notes, minus the receipts and the finalized invoices,
    * counting only documents with a positive total. */
  lemma {:induction false} SupplierBalance(cat: Stock.Catalogue, w: World, acts: seq<Act>, party: Uuid)
    requires cat.Valid() && SupplierSettled(w, party) && forall a <- acts :: NamesNoParty(a.op, party)
    ensures SupplierSettled(Run(cat, w, acts), party)
    decreases |acts|
  {
    if acts != [] {
      assert NamesNoParty(acts[0].op, party);
      ActSettles(cat, w, acts[0], party);
      SupplierBalance(cat, Next(cat, w, acts[0]), acts[1..], party);
    }
  }
}
