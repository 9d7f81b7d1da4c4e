/** internal/modules/purchases: documents whose finalization posts stock and journal in one
  * transaction. */
module Purchases {
  import opened Wrappers
  import opened Decimals
  import Money
  import Stock
  import Ledger

  datatype DocumentType = PurchaseOrder | GoodsReceipt | PurchaseInvoice | PurchaseReturn | DebitNote
      | Other(name: string)

  datatype Status = Draft | Finalized | Cancelled

  /** A purchase_document_lines row. */
  datatype Line = Line(variant: Uuid, unit: Uuid, quantity: Column, unitPrice: Column, lineTotal: Column)

  datatype Document = Document(kind: DocumentType, reference: Option<Uuid>, supplier: Uuid, warehouse: Uuid,
                               date: int, currency: string, status: Status, lines: seq<Line>)

  /** Every table a finalization touches.  A document's id is its position. */
  datatype World = World(stock: Stock.Tables, books: Ledger.Books, docs: seq<Document>)

  datatype Buyer = Buyer(mayCreate: bool, mayFinalize: bool, accounting: Ledger.Principal)

  datatype PurchaseError =
    | Forbidden | NotFound | InvalidDocumentType | NotDraft | EmptyDocument | UnregisteredCurrency | CheckViolation
    | StockFailed(stock: Stock.StockError) | PostingFailed(ledger: Ledger.LedgerError)

  /** Whether finalizing posts stock movements: an invoice only when it bills no earlier receipt. */
  predicate StockAffecting(d: Document) {
    d.kind.GoodsReceipt? || d.kind.PurchaseReturn? || (d.kind.PurchaseInvoice? && d.reference.None?)
  }

  predicate AccountingAffecting(d: Document) {
    d.kind.PurchaseInvoice? || d.kind.PurchaseReturn? || d.kind.DebitNote?
  }

  predicate ReducesPayable(d: Document) {
    d.kind.PurchaseReturn? || d.kind.DebitNote?
  }

  function Total(lines: seq<Line>): Column {
    if lines == [] then 0 else Total(lines[..|lines| - 1]) + lines[|lines| - 1].lineTotal
  }

  /** Whether finalizing posts a journal. */
  predicate Payable(d: Document) {
    AccountingAffecting(d) && Total(d.lines) > 0
  }

  // ---------- What a finalization asks of the other modules ----------

  function MovementType(d: Document): Stock.MovementType {
    if d.kind.PurchaseReturn? then Stock.PurchaseReturn else Stock.PurchaseReceipt
  }

  function MovementFor(d: Document, id: Uuid, l: Line): Stock.MovementRequest {
    Stock.MovementRequest(Stock.Key(d.warehouse, l.variant), MovementType(d), l.unit, FromColumn(l.quantity),
                          if Stock.IsReceipt(MovementType(d)) then Some(FromColumn(l.unitPrice)) else None,
                          Stock.Reference("purchase_document", Some(id)))
  }

  function MovementsFor(d: Document, id: Uuid): (ps: seq<Stock.MovementRequest>)
    ensures |ps| == if StockAffecting(d) then |d.lines| else 0
    ensures forall i | 0 <= i < |ps| :: ps[i] == MovementFor(d, id, d.lines[i])
  {
    if StockAffecting(d) then seq(|d.lines|, i requires 0 <= i < |d.lines| => MovementFor(d, id, d.lines[i])) else []
  }

  function Swapped(l: Ledger.LineRequest): Ledger.LineRequest {
    l.(debit := l.credit, credit := l.debit)
  }

  /** Debit Purchases, credit the supplier; the other way round for a return or debit note. */
  function JournalFor(d: Document, id: Uuid): Ledger.JournalRequest {
    var total := FromColumn(Total(d.lines));
    var purchases := Ledger.LineRequest(Ledger.PURCHASES, None, total, 0.0);
    var payable := Ledger.LineRequest(Ledger.ACCOUNTS_PAYABLE, Some(d.supplier), 0.0, total);
    Ledger.JournalRequest(Ledger.Source("purchase_document", Some(id)), Some(d.date),
                          if ReducesPayable(d) then [Swapped(purchases), Swapped(payable)] else [purchases, payable])
  }

  // ---------- Operations ----------

  function CreateDocument(w: World, who: Buyer, d: Document): Result<World, PurchaseError> {
    if !who.mayCreate then Err(Forbidden)
    else if d.kind.Other? then Err(InvalidDocumentType)
    else Ok(w.(docs := w.docs + [d.(status := Draft, lines := [])]))
  }

  datatype LineRequest = LineRequest(variant: Uuid, unit: Uuid, quantity: real, unitPrice: real)

  function AddLine(w: World, who: Buyer, id: int, p: LineRequest): Result<World, PurchaseError> {
    if !who.mayCreate then Err(Forbidden)
    else if !(0 <= id < |w.docs|) then Err(NotFound)
    else
      var d := w.docs[id];
      if d.status != Draft then Err(NotDraft)
      else if Money.MinorDigits(d.currency).None? then Err(UnregisteredCurrency)
      else if ToColumn(p.quantity) <= 0 then Err(CheckViolation)
      else
        var line := Line(p.variant, p.unit, ToColumn(p.quantity), ToColumn(p.unitPrice),
                         ToColumn(p.quantity * p.unitPrice));
        Ok(w.(docs := w.docs[id := d.(lines := d.lines + [line])]))
  }

  function FinalizedWorld(w: World, id: nat, stock: Stock.Tables, books: Ledger.Books): World
    requires id < |w.docs|
  {
    World(stock, books, w.docs[id := w.docs[id].(status := Finalized)])
  }

  /** The journal part of a finalization, up to and including the commit-time trigger. */
  function PostPayable(b: Ledger.Books, who: Buyer, d: Document, id: Uuid, now: int,
                       scan: nat): Result<Ledger.Books, Ledger.LedgerError> {
    if Payable(d) then Ledger.Commit(b, Ledger.PostTx(b, who.accounting, JournalFor(d, id), now, scan)) else Ok(b)
  }

  function Finalize(cat: Stock.Catalogue, w: World, who: Buyer, id: int, now: int,
                    scan: nat): Result<World, PurchaseError>
    requires cat.Valid()
  {
    if !who.mayFinalize then Err(Forbidden)
    else if !(0 <= id < |w.docs|) then Err(NotFound)
    else
      var d := w.docs[id];
      if d.status != Draft then Err(NotDraft)
      else if d.lines == [] then Err(EmptyDocument)
      else
        var stock := Stock.RecordAll(cat, w.stock, MovementsFor(d, id));
        if stock.Err? then Err(StockFailed(stock.error))
        else
          var books := PostPayable(w.books, who, d, id, now, scan);
          if books.Err? then Err(PostingFailed(books.error))
          else Ok(FinalizedWorld(w, id, stock.value, books.value))
  }

  // ---------- The service ----------

  class Purchasing {
    const inventory: Stock.Inventory
    const accounting: Ledger.Accounting
    var docs: seq<Document>

    constructor (inventory: Stock.Inventory, accounting: Ledger.Accounting)
      ensures this.inventory == inventory && this.accounting == accounting && docs == []
    {
      this.inventory := inventory;
      this.accounting := accounting;
      docs := [];
    }

    function Contents(): World
      reads this, inventory, accounting
    {
      World(inventory.Contents(), accounting.books, docs)
    }

    method Create(who: Buyer, d: Document) returns (r: Result<int, PurchaseError>)
      modifies this
      ensures match CreateDocument(old(Contents()), who, d)
              case Ok(w) => r == Ok(|old(docs)|) && Contents() == w
              case Err(e) => r == Err(e) && Contents() == old(Contents())
    {
      if !who.mayCreate { return Err(Forbidden); }
      if d.kind.Other? { return Err(InvalidDocumentType); }
      r := Ok(|docs|);
      docs := docs + [d.(status := Draft, lines := [])];
    }

    method Add(who: Buyer, id: int, p: LineRequest) returns (r: Result<Line, PurchaseError>)
      modifies this
      ensures match AddLine(old(Contents()), who, id, p)
              case Ok(w) => r.Ok? && Contents() == w
              case Err(e) => r == Err(e) && Contents() == old(Contents())
    {
      if !who.mayCreate { return Err(Forbidden); }
      if !(0 <= id < |docs|) { return Err(NotFound); }
      var d := docs[id];
      if d.status != Draft { return Err(NotDraft); }
      if Money.MinorDigits(d.currency).None? { return Err(UnregisteredCurrency); }
      if ToColumn(p.quantity) <= 0 { return Err(CheckViolation); }
      var line := Line(p.variant, p.unit, ToColumn(p.quantity), ToColumn(p.unitPrice),
                       ToColumn(p.quantity * p.unitPrice));
      docs := docs[id := d.(lines := d.lines + [line])];
      return Ok(line);
    }

    /** Posts one movement per line; the caller rolls back on failure. */
    method PostStock(d: Document, id: int) returns (r: Option<Stock.StockError>)
      requires inventory.cat.Valid()
      modifies inventory
      ensures match Stock.RecordAll(inventory.cat, old(inventory.Contents()), MovementsFor(d, id))
              case Ok(t) => r == None && inventory.Contents() == t
              case Err(e) => r == Some(e)
    {
      if StockAffecting(d) {
        ghost var ps := MovementsFor(d, id);
        for i := 0 to |d.lines|
          invariant Stock.RecordAll(inventory.cat, inventory.Contents(), ps[i..])
                    == Stock.RecordAll(inventory.cat, old(inventory.Contents()), ps)
        {
          var params := MovementFor(d, id, d.lines[i]);
          assert ps[i..][0] == params && ps[i..][1..] == ps[i + 1..];
          var posted := inventory.Record(params);
          if posted.Err? { return Some(posted.error); }
        }
      }
      return None;
    }

    /** Posts the purchase journal, swapping its lines in place for a return or debit note. */
    method PostJournal(who: Buyer, d: Document, id: int, now: int, scan: nat) returns (r: Option<Ledger.LedgerError>)
      modifies accounting
      ensures match PostPayable(old(accounting.books), who, d, id, now, scan)
              case Ok(b) => r == None && accounting.books == b
              case Err(e) => r == Some(e) && accounting.books == old(accounting.books)
    {
      if !AccountingAffecting(d) { return None; }
      var total := 0;
      for i := 0 to |d.lines|
        invariant total == Total(d.lines[..i])
      {
        assert d.lines[..i + 1][..i] == d.lines[..i];
        total := total + d.lines[i].lineTotal;
      }
      assert d.lines[..|d.lines|] == d.lines;
      if total <= 0 { return None; }
      var docLines := [Ledger.LineRequest(Ledger.PURCHASES, None, FromColumn(total), 0.0),
                       Ledger.LineRequest(Ledger.ACCOUNTS_PAYABLE, Some(d.supplier), 0.0, FromColumn(total))];
      if ReducesPayable(d) {
        ghost var booked := docLines;
        for i := 0 to |docLines|
          invariant |docLines| == |booked|
          invariant forall j | 0 <= j < |booked| :: docLines[j] == if j < i then Swapped(booked[j]) else booked[j]
        {
          docLines := docLines[i := Swapped(docLines[i])];
        }
        assert docLines == [Swapped(booked[0]), Swapped(booked[1])];
      }
      var req := Ledger.JournalRequest(Ledger.Source("purchase_document", Some(id)), Some(d.date), docLines);
      assert req == JournalFor(d, id);
      var saved := accounting.books;
      var posted := accounting.DoPost(who.accounting, req, now, scan);
      r := accounting.Finish(saved, if posted.Err? then Some(posted.error) else None);
    }

    /** FinalizeDocument: stock, journal and status change together or not at all. */
    method FinalizeDocument(who: Buyer, id: int, now: int, scan: nat) returns (r: Option<PurchaseError>)
      requires inventory.cat.Valid()
      modifies this, inventory, accounting
      ensures match Finalize(inventory.cat, old(Contents()), who, id, now, scan)
              case Ok(w) => r == None && Contents() == w
              case Err(e) => r == Some(e) && Contents() == old(Contents())
    {
      if !who.mayFinalize { return Some(Forbidden); }
      if !(0 <= id < |docs|) { return Some(NotFound); }
      var d := docs[id];
      if d.status != Draft { return Some(NotDraft); }
      if d.lines == [] { return Some(EmptyDocument); }
      var saved := inventory.Contents();
      var stockError := PostStock(d, id);
      if stockError.Some? {
        inventory.Restore(saved);
        return Some(StockFailed(stockError.value));
      }
      var journalError := PostJournal(who, d, id, now, scan);
      if journalError.Some? {
        inventory.Restore(saved);
        return Some(PostingFailed(journalError.value));
      }
      docs := docs[id := d.(status := Finalized)];
      return None;
    }
  }
}
