/** A purchase document from its first line to its supplier's balance. */
module PurchaseLaws {
  import opened Wrappers
  import opened Decimals
  import opened Purchases
  import opened PlatformRuns
  import Money
  import Ledger
  import Stock

  /** Lines entered one after the other, up to the first that is refused. */
  function AddLines(w: World, who: Buyer, id: int, ps: seq<Purchases.LineRequest>): Result<World, PurchaseError>
    decreases |ps|
  {
    if ps == [] then Ok(w)
    else
      var first := AddLine(w, who, id, ps[0]);
      if first.Err? then first else AddLines(first.value, who, id, ps[1..])
  }

  /** The price of the entered lines before any column has rounded it. */
  function Charged(ps: seq<Purchases.LineRequest>): real {
    if ps == [] then 0.0 else ps[0].quantity * ps[0].unitPrice + Charged(ps[1..])
  }

  /** Half a millionth a line. */
  function Slack(ps: seq<Purchases.LineRequest>): real {
    |ps| as real * 0.0000005
  }

  lemma {:induction false} TotalAppend(lines: seq<Line>, l: Line)
    ensures Total(lines + [l]) == Total(lines) + l.lineTotal
  {
    assert (lines + [l])[..|lines|] == lines;
  }

  /** However many lines are added, a document's total stays within half a millionth a line of the
    * exact sum of quantity times price, and only that document's lines change. */
  lemma {:induction false} TotalIsClose(w: World, who: Buyer, id: int, ps: seq<Purchases.LineRequest>, w': World)
    requires 0 <= id < |w.docs| && AddLines(w, who, id, ps) == Ok(w')
    ensures |w'.docs| == |w.docs| && w' == w.(docs := w.docs[id := w.docs[id].(lines := w'.docs[id].lines)])
    ensures w.docs[id].lines <= w'.docs[id].lines && |w'.docs[id].lines| == |w.docs[id].lines| + |ps|
    ensures Abs(FromColumn(Total(w'.docs[id].lines)) - FromColumn(Total(w.docs[id].lines)) - Charged(ps)) <= Slack(ps)
    decreases |ps|
  {
    if ps == [] {
      assert w.docs[id := w.docs[id]] == w.docs;
    } else {
      var next := AddLine(w, who, id, ps[0]).value;
      var added := next.docs[id].lines[|w.docs[id].lines|];
      TotalAppend(w.docs[id].lines, added);
      ToColumnIsNearest(ps[0].quantity * ps[0].unitPrice);
      TotalIsClose(next, who, id, ps[1..], w');
      assert w.docs[id := next.docs[id]][id := w'.docs[id]] == w.docs[id := w'.docs[id]];
      assert Slack(ps) == 0.0000005 + Slack(ps[1..]);
    }
  }

  lemma {:induction false} StoresPositive(x: real)
    ensures ToColumn(x) > 0 <==> x >= 0.0000005
  {
    ToColumnIsNearest(x);
    if x >= 0.0000005 { ToColumnMonotone(0.0000005, x); }
  }

  /** Lines are added exactly by someone who may create documents, to a draft in a registered currency,
    * each with a quantity that the column stores as positive. */
  lemma {:induction false} WhenLinesAdded(w: World, who: Buyer, id: int, ps: seq<Purchases.LineRequest>)
    ensures AddLines(w, who, id, ps).Ok? <==>
      (ps != [] ==>
      && who.mayCreate && 0 <= id < |w.docs| && w.docs[id].status == Draft
      && w.docs[id].currency in {"INR", "USD", "EUR", "GBP", "AED", "SGD", "AUD", "CAD", "JPY", "KWD", "BHD", "OMR"}
      && forall p <- ps :: p.quantity >= 0.0000005)
    decreases |ps|
  {
    if ps != [] {
      StoresPositive(ps[0].quantity);
      hide ToColumn;
      if 0 <= id < |w.docs| { Money.UnitsPerMajor(w.docs[id].currency); }
      var first := AddLine(w, who, id, ps[0]);
      assert forall p <- ps :: p == ps[0] || p in ps[1..];
      assert forall p <- ps[1..] :: p in ps;
      if first.Ok? { WhenLinesAdded(first.value, who, id, ps[1..]); }
    }
  }

  /** From a new document to its lines: whoever may create documents gets an empty draft of any known type
    * at the end of the table, everything else as entered, and may fill it. */
  lemma {:induction false} WhenDrafted(w: World, who: Buyer, d: Document, ps: seq<Purchases.LineRequest>)
    ensures var created := CreateDocument(w, who, d);
      && (created.Ok? <==> who.mayCreate && d.kind in {PurchaseOrder, GoodsReceipt, PurchaseInvoice,
                                                       DocumentType.PurchaseReturn, DebitNote})
      && (created.Ok? ==>
            && created.value == w.(docs := w.docs + [Document(d.kind, d.reference, d.supplier, d.warehouse, d.date,
                                                              d.currency, Draft, [])])
            && (AddLines(created.value, who, |w.docs|, ps).Ok? <==>
                  (ps != [] ==> Money.MinorDigits(d.currency).Some? && forall p <- ps :: p.quantity >= 0.0000005)))
  {
    Money.UnitsPerMajor(d.currency);
    var created := CreateDocument(w, who, d);
    if created.Ok? { WhenLinesAdded(created.value, who, |w.docs|, ps); }
    hide AddLines, Money.MinorDigits;
  }

  /** The stored line has the entered product and unit, and quantity, price and total to six places. */
  predicate Entered(l: Line, p: Purchases.LineRequest) {
    && l.variant == p.variant && l.unit == p.unit && l.quantity > 0
    && Abs(FromColumn(l.quantity) - p.quantity) <= 0.0000005
    && Abs(FromColumn(l.unitPrice) - p.unitPrice) <= 0.0000005
    && Abs(FromColumn(l.lineTotal) - p.quantity * p.unitPrice) <= 0.0000005
  }

  lemma {:induction false} LineIsEntered(w: World, who: Buyer, id: int, p: Purchases.LineRequest, w': World)
    requires AddLine(w, who, id, p) == Ok(w')
    ensures 0 <= id < |w.docs| && |w'.docs| == |w.docs|
    ensures var n := |w.docs[id].lines|; |w'.docs[id].lines| == n + 1 && Entered(w'.docs[id].lines[n], p)
  {
    var l := w'.docs[id].lines[|w.docs[id].lines|];
    assert l == Line(p.variant, p.unit, ToColumn(p.quantity), ToColumn(p.unitPrice),
                     ToColumn(p.quantity * p.unitPrice));
    StoredNear(l.quantity, p.quantity);
    StoredNear(l.unitPrice, p.unitPrice);
    StoredNear(l.lineTotal, p.quantity * p.unitPrice);
  }

  lemma {:induction false} StoredNear(c: Column, x: real)
    requires c == ToColumn(x)
    ensures Abs(FromColumn(c) - x) <= 0.0000005
  {
    ToColumnIsNearest(x);
  }

  /** However many lines are added, each is stored as it was entered, in the order of entry. */
  lemma {:induction false} LinesAreEntered(w: World, who: Buyer, id: int, ps: seq<Purchases.LineRequest>, w': World,
                                           i: nat)
    requires 0 <= id < |w.docs| && AddLines(w, who, id, ps) == Ok(w') && i < |ps|
    ensures id < |w'.docs| && |w'.docs[id].lines| == |w.docs[id].lines| + |ps|
    ensures Entered(w'.docs[id].lines[|w.docs[id].lines| + i], ps[i])
    decreases |ps|
  {
    hide AddLine, Entered, Charged, Slack, FromColumn;
    TotalIsClose(w, who, id, ps, w');
    var next := AddLine(w, who, id, ps[0]).value;
    LineIsEntered(w, who, id, ps[0], next);
    TotalIsClose(next, who, id, ps[1..], w');
    var n := |w.docs[id].lines|;
    if i > 0 {
      LinesAreEntered(next, who, id, ps[1..], w', i - 1);
      assert |next.docs[id].lines| + (i - 1) == n + i && ps[1..][i - 1] == ps[i];
    } else {
      assert w'.docs[id].lines[n] == next.docs[id].lines[n];
    }
  }

  lemma {:induction false} FromDifference(a: Column, b: Column)
    ensures FromColumn(a) - FromColumn(b) == FromColumn(a - b)
    ensures FromColumn(b - a) == -FromColumn(a - b)
    ensures FromColumn(a - b) > 0.0 <==> a > b
  {
  }

  /** A document that is created, filled and finalized moves its supplier's balance by what its lines
    * cost, up to half a millionth a line: down for an invoice, up for a return or a debit note, and
    * not at all for an order, a receipt, or lines that cost nothing or less. */
  lemma {:induction false} PurchaseBooksTheSupplier(cat: Stock.Catalogue, w: World, who: Buyer, d: Document,
                                                    ps: seq<Purchases.LineRequest>, now: int, scan: nat,
                                                    created: World, filled: World, w': World)
    requires cat.Valid() && CreateDocument(w, who, d) == Ok(created)
             && AddLines(created, who, |w.docs|, ps) == Ok(filled)
    requires Finalize(cat, filled, who, |w.docs|, now, scan) == Ok(w')
    ensures var moved := FromColumn(PartyBalance(w'.books.journals, d.supplier))
            - FromColumn(PartyBalance(w.books.journals, d.supplier));
      var cost := if Charged(ps) >= 0.0 then Charged(ps) else 0.0;
      if !AccountingAffecting(d) then moved == 0.0
      else if ReducesPayable(d) then Abs(moved - cost) <= Slack(ps)
      else Abs(moved + cost) <= Slack(ps)
  {
    var id := |w.docs|;
    hide AddLines, Finalize, PartyBalance, Charged, Slack;
    TotalIsClose(created, who, id, ps, filled);
    FinalizeMovesBalance(cat, filled, who, id, now, scan, w', d.supplier);
    FromDifference(PartyBalance(w'.books.journals, d.supplier), PartyBalance(w.books.journals, d.supplier));
  }
}
