/** What a finalized purchase document leaves in the stock and the ledger, told from the document's own
  * lines: which entries, how much of each product, at what value, and which journal. */
module FinalizedDocuments {
  import opened Wrappers
  import opened Decimals
  import opened Stock
  import opened StockLaws
  import opened Purchases
  import Conversions
  import Ledger
  import PlatformRuns
  import StockValue

  /** A goods receipt, a return, or an invoice that bills no earlier receipt moves stock. */
  predicate MovesStock(d: Document) {
    match d.kind
    case GoodsReceipt => true
    case PurchaseReturn => true
    case PurchaseInvoice => d.reference == None
    case _ => false
  }

  /** The ledger entry for one line: a receipt at the line's price, or a return without one. */
  predicate IsEntryFor(d: Document, id: int, l: Line, mv: Movement) {
    && mv.key == Key(d.warehouse, l.variant) && mv.unit == l.unit && mv.quantity == l.quantity
    && mv.reference == Reference("purchase_document", Some(id))
    && if d.kind.PurchaseReturn? then mv.movementType == MovementType.PurchaseReturn && mv.unitCost == None
       else mv.movementType == PurchaseReceipt && mv.unitCost == Some(l.unitPrice)
  }

  /** The journal of an invoice: debit Purchases, credit the supplier's payables; of a return or debit
    * note the reverse. */
  function JournalOf(d: Document, id: int): Option<Ledger.Journal> {
    var total := Total(d.lines);
    var purchases, payables := "5000", "2000";
    if total <= 0 then None
    else match d.kind
         case PurchaseInvoice =>
           Some(Ledger.Journal(Ledger.Source("purchase_document", Some(id)), d.date,
                               [Ledger.JournalLine(purchases, None, total, 0),
                                Ledger.JournalLine(payables, Some(d.supplier), 0, total)]))
         case PurchaseReturn => Some(ReverseJournal(d, id, total))
         case DebitNote => Some(ReverseJournal(d, id, total))
         case _ => None
  }

  function ReverseJournal(d: Document, id: int, total: Column): Ledger.Journal {
    Ledger.Journal(Ledger.Source("purchase_document", Some(id)), d.date,
                   [Ledger.JournalLine("5000", None, 0, total),
                    Ledger.JournalLine("2000", Some(d.supplier), total, 0)])
  }

  lemma {:induction false} EntryFor(cat: Catalogue, d: Document, id: int, l: Line)
    requires cat.Valid() && MovesStock(d) && Resolve(cat, MovementFor(d, id, l)).Ok?
    ensures IsEntryFor(d, id, l, NewMovement(MovementFor(d, id, l), Resolve(cat, MovementFor(d, id, l)).value))
  {
    ColumnRoundTrip(l.quantity);
    ColumnRoundTrip(l.unitPrice);
    hide ToColumn, FromColumn, Resolve;
  }

  lemma {:induction false} JournalIsPayable(d: Document, id: int)
    ensures JournalOf(d, id) == if !Payable(d) then None
                                else Some(Ledger.Journal(Ledger.Source("purchase_document", Some(id)), d.date,
                                                         PlatformRuns.PayableLines(d)))
  {
    hide Total;
  }

  lemma {:induction false} FinalizedJournal(cat: Catalogue, w: World, who: Buyer, id: int, now: int, scan: nat,
                                            w': World)
    requires cat.Valid() && Finalize(cat, w, who, id, now, scan) == Ok(w')
    ensures 0 <= id < |w.docs|
    ensures w'.books.journals == w.books.journals + match JournalOf(w.docs[id], id) case None => [] case Some(j) => [j]
  {
    hide Finalize, RecordAll, NewMovement, Resolve, MovementsFor, PlatformRuns.PayableLines, JournalOf, Payable;
    PlatformRuns.FinalizedAppends(cat, w, who, id, now, scan, w');
    JournalIsPayable(w.docs[id], id);
    var js, js' := w.books.journals, w'.books.journals;
    if Payable(w.docs[id]) { assert js' == js + [js'[|js|]]; }
  }

  lemma {:induction false} FinalizedRows(cat: Catalogue, w: World, who: Buyer, id: int, now: int, scan: nat, w': World)
    requires cat.Valid() && Finalize(cat, w, who, id, now, scan) == Ok(w')
    ensures 0 <= id < |w.docs|
    ensures var d, ms, ms', ps := w.docs[id], w.stock.movements, w'.stock.movements, MovementsFor(w.docs[id], id);
      && ms <= ms' && |ms'| == |ms| + |ps|
      && forall i | 0 <= i < |ps|
          :: Resolve(cat, ps[i]).Ok? && ms'[|ms| + i] == NewMovement(ps[i], Resolve(cat, ps[i]).value)
  {
    hide Finalize, RecordAll, NewMovement, Resolve, MovementsFor, PlatformRuns.PayableLines, Payable;
    PlatformRuns.FinalizedAppends(cat, w, who, id, now, scan, w');
  }

  lemma {:induction false} RowsAreEntries(cat: Catalogue, w: World, who: Buyer, id: int, now: int, scan: nat, w': World,
                                          i: int)
    requires cat.Valid() && Finalize(cat, w, who, id, now, scan) == Ok(w') && 0 <= id < |w.docs|
    requires |w.stock.movements| <= i < |w'.stock.movements|
    ensures MovesStock(w.docs[id]) && i - |w.stock.movements| < |w.docs[id].lines|
    ensures IsEntryFor(w.docs[id], id, w.docs[id].lines[i - |w.stock.movements|], w'.stock.movements[i])
  {
    FinalizedRows(cat, w, who, id, now, scan, w');
    var d, n := w.docs[id], i - |w.stock.movements|;
    assert MovesStock(d) by { hide *; assert |MovementsFor(d, id)| > 0; ReturnsMove(d, id); }
    assert MovementsFor(d, id)[n] == MovementFor(d, id, d.lines[n]) && |w.stock.movements| + n == i;
    hide *;
    EntryFor(cat, d, id, d.lines[n]);
  }

  lemma {:induction false} ReturnsMove(d: Document, id: int)
    ensures |MovementsFor(d, id)| == if MovesStock(d) then |d.lines| else 0
  {
    hide MovementFor;
  }

  /** A finalized document has one entry per line if it moves stock, and its journal if it has one. */
  lemma {:induction false} FinalizedEntries(cat: Catalogue, w: World, who: Buyer, id: int, now: int, scan: nat,
                                            w': World)
    requires cat.Valid() && Finalize(cat, w, who, id, now, scan) == Ok(w')
    ensures 0 <= id < |w.docs|
    ensures var d, ms, ms' := w.docs[id], w.stock.movements, w'.stock.movements;
      && ms <= ms' && |ms'| == |ms| + (if MovesStock(d) then |d.lines| else 0)
      && forall i | |ms| <= i < |ms'| :: IsEntryFor(d, id, d.lines[i - |ms|], ms'[i])
    ensures var d, js, js' := w.docs[id], w.books.journals, w'.books.journals;
            js' == js + match JournalOf(d, id) case None => [] case Some(j) => [j]
  {
    hide *;
    FinalizedRows(cat, w, who, id, now, scan, w');
    FinalizedJournal(cat, w, who, id, now, scan, w');
    var d, ms, ms' := w.docs[id], w.stock.movements, w'.stock.movements;
    ReturnsMove(d, id);
    forall i | |ms| <= i < |ms'| ensures i - |ms| < |d.lines| && IsEntryFor(d, id, d.lines[i - |ms|], ms'[i]) {
      RowsAreEntries(cat, w, who, id, now, scan, w', i);
    }
  }

  // ---------- Quantities ----------

  /** Every line is in its product's base unit. */
  predicate InBaseUnits(cat: Catalogue, lines: seq<Line>) {
    forall l <- lines :: l.variant in cat.baseUnit && l.unit == cat.baseUnit[l.variant]
  }

  function QuantityOf(lines: seq<Line>, variant: Uuid): Column {
    if lines == [] then 0
    else (if lines[0].variant == variant then lines[0].quantity else 0) + QuantityOf(lines[1..], variant)
  }

  function Change(d: Document, lines: seq<Line>, k: Key): Column {
    if k.warehouse != d.warehouse then 0
    else if d.kind.PurchaseReturn? then -QuantityOf(lines, k.variant) else QuantityOf(lines, k.variant)
  }

  function RequestsFor(d: Document, id: int, lines: seq<Line>): (ps: seq<MovementRequest>)
    ensures |ps| == |lines|
    ensures forall i | 0 <= i < |ps| :: ps[i] == MovementFor(d, id, lines[i])
  {
    seq(|lines|, i requires 0 <= i < |lines| => MovementFor(d, id, lines[i]))
  }

  lemma {:induction false} OneLine(l: Line, variant: Uuid)
    ensures QuantityOf([l], variant) == if l.variant == variant then l.quantity else 0
  {
    assert [l][1..] == [];
  }

  lemma {:induction false} LineMovesRow(cat: Catalogue, t: Tables, d: Document, id: int, l: Line, t': Tables, k: Key)
    requires cat.Valid() && RecordMovement(cat, t, MovementFor(d, id, l)) == Ok(t') && InBaseUnits(cat, [l])
    ensures BalanceOf(t', k).onHand == BalanceOf(t, k).onHand + Change(d, [l], k)
  {
    var p := MovementFor(d, id, l);
    var quantity := Conversions.RecordedMovement(cat, t, p, t');
    assert l in [l] && quantity == FromColumn(l.quantity);
    var before := BalanceOf(t, p.key).onHand;
    ColumnRoundTrip(before + l.quantity);
    ColumnRoundTrip(before - l.quantity);
    assert FromColumn(before) + quantity == FromColumn(before + l.quantity);
    assert FromColumn(before) - quantity == FromColumn(before - l.quantity);
    OneLine(l, k.variant);
    assert p.movementType in (if d.kind.PurchaseReturn? then Conversions.OUTWARD else Conversions.INWARD);
    hide ToColumn, RecordMovement, QuantityOf;
  }

  lemma {:induction false} LinesMoveRow(cat: Catalogue, t: Tables, d: Document, id: int, lines: seq<Line>, t': Tables,
                                        k: Key)
    requires cat.Valid() && RecordAll(cat, t, RequestsFor(d, id, lines)) == Ok(t') && InBaseUnits(cat, lines)
    ensures BalanceOf(t', k).onHand == BalanceOf(t, k).onHand + Change(d, lines, k)
    decreases |lines|
  {
    if lines != [] {
      var ps := RequestsFor(d, id, lines);
      var next := RecordMovement(cat, t, ps[0]).value;
      hide RecordMovement;
      assert lines[0] in lines && ps[1..] == RequestsFor(d, id, lines[1..]);
      LineMovesRow(cat, t, d, id, lines[0], next, k);
      LinesMoveRow(cat, next, d, id, lines[1..], t', k);
      OneLine(lines[0], k.variant);
    }
  }

  /** Finalizing a document in base units raises each product's quantity at its warehouse by exactly what
    * its lines say, or lowers it for a return, and touches no other row's quantity. */
  lemma {:induction false} FinalizedQuantities(cat: Catalogue, w: World, who: Buyer, id: int, now: int, scan: nat,
                                               w': World, k: Key)
    requires cat.Valid() && Finalize(cat, w, who, id, now, scan) == Ok(w')
    requires 0 <= id < |w.docs| && InBaseUnits(cat, w.docs[id].lines)
    ensures var d := w.docs[id];
            BalanceOf(w'.stock, k).onHand
            == BalanceOf(w.stock, k).onHand + (if MovesStock(d) then Change(d, d.lines, k) else 0)
  {
    PlatformRuns.FinalizedParts(cat, w, who, id, now, scan, w');
    var d := w.docs[id];
    if MovesStock(d) {
      assert MovementsFor(d, id) == RequestsFor(d, id, d.lines);
      LinesMoveRow(cat, w.stock, d, id, d.lines, w'.stock, k);
    } else {
      assert MovementsFor(d, id) == [];
    }
  }

  // ---------- Value ----------

  /** Quantity times price over the lines, as stored. */
  function LinesValue(lines: seq<Line>): real {
    if lines == [] then 0.0
    else Value(FromColumn(lines[0].quantity), FromColumn(lines[0].unitPrice)) + LinesValue(lines[1..])
  }

  lemma {:induction false} PaidForLines(d: Document, id: int, lines: seq<Line>)
    requires !d.kind.PurchaseReturn?
    ensures StockValue.Paid(RequestsFor(d, id, lines)) == LinesValue(lines)
    decreases |lines|
  {
    if lines != [] {
      PaidForLines(d, id, lines[1..]);
      assert RequestsFor(d, id, lines)[1..] == RequestsFor(d, id, lines[1..]);
      hide Value, FromColumn;
    }
  }

  /** No product of the lines is owed at the warehouse. */
  predicate NothingOwed(t: Tables, d: Document, lines: seq<Line>) {
    forall l <- lines :: BalanceOf(t, Key(d.warehouse, l.variant)).onHand >= 0
  }

  lemma {:induction false} LineLeavesStock(cat: Catalogue, t: Tables, d: Document, id: int, l: Line)
    requires cat.Valid() && !d.kind.PurchaseReturn? && BalanceOf(t, Key(d.warehouse, l.variant)).onHand >= 0
    ensures var p := MovementFor(d, id, l);
      && p.movementType == PurchaseReceipt && StockValue.LeavesStock(cat, t, p)
      && (RecordMovement(cat, t, p).Ok? ==>
            forall k :: BalanceOf(RecordMovement(cat, t, p).value, k).onHand >= BalanceOf(t, k).onHand)
  {
    var p := MovementFor(d, id, l);
    if Resolve(cat, p).Ok? { assert BaseQuantity(p, Resolve(cat, p).value) > 0.0; }
    hide ToColumn, FromColumn, Conversions.IsBaseQuantity, Conversions.Convertible;
    if RecordMovement(cat, t, p).Ok? {
      var t' := RecordMovement(cat, t, p).value;
      var quantity := Conversions.RecordedMovement(cat, t, p, t');
      assert PurchaseReceipt in Conversions.INWARD && Last(t'.movements).baseQuantity == ToColumn(quantity);
      assert ToColumn(quantity) > 0;
    }
  }

  lemma {:induction false} LinesAreReceipts(cat: Catalogue, t: Tables, d: Document, id: int, lines: seq<Line>)
    requires cat.Valid() && !d.kind.PurchaseReturn? && NothingOwed(t, d, lines)
    ensures StockValue.AllReceipts(cat, t, RequestsFor(d, id, lines))
    decreases |lines|
  {
    if lines != [] {
      var ps := RequestsFor(d, id, lines);
      assert lines[0] in lines && ps[1..] == RequestsFor(d, id, lines[1..]);
      LineLeavesStock(cat, t, d, id, lines[0]);
      hide RecordMovement, StockValue.LeavesStock, BalanceOf, MovementFor;
      if RecordMovement(cat, t, ps[0]).Ok? {
        LinesAreReceipts(cat, RecordMovement(cat, t, ps[0]).value, d, id, lines[1..]);
      }
    }
  }

  /** Finalizing a receipt of products none of which is owed raises the stored value of any rows that hold
    * theirs by quantity times price over its lines, up to the slack of each line. */
  lemma {:induction false} FinalizedValue(cat: Catalogue, w: World, who: Buyer, id: int, now: int, scan: nat, w': World,
                                          ks: seq<Key>)
    requires cat.Valid() && Finalize(cat, w, who, id, now, scan) == Ok(w') && 0 <= id < |w.docs|
    requires var d := w.docs[id]; MovesStock(d) && !d.kind.PurchaseReturn? && NothingOwed(w.stock, d, d.lines)
    requires NoDuplicates(ks) && forall l <- w.docs[id].lines :: Key(w.docs[id].warehouse, l.variant) in ks
    ensures Abs(StockValue.TotalValue(w'.stock, ks) - StockValue.TotalValue(w.stock, ks) - LinesValue(w.docs[id].lines))
            <= StockValue.ChainSlack(cat, w.stock, MovementsFor(w.docs[id], id))
  {
    PlatformRuns.FinalizedParts(cat, w, who, id, now, scan, w');
    var d, ps := w.docs[id], MovementsFor(w.docs[id], id);
    assert ps == RequestsFor(d, id, d.lines);
    forall p <- ps ensures p.key in ks {
      var i :| 0 <= i < |ps| && ps[i] == p;
      assert d.lines[i] in d.lines;
    }
    PaidForLines(d, id, d.lines);
    LinesAreReceipts(cat, w.stock, d, id, d.lines);
    hide *;
    StockValue.ReceiptsAddValue(cat, w.stock, ps, w'.stock, ks);
  }
}
