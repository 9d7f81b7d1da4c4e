/** What receipts add to the value of the stock as it is stored: quantity on hand times average cost. */
module StockValue {
  import opened Wrappers
  import opened Decimals
  import opened Stock
  import opened StockLaws

  /** A row's value as its columns give it. */
  function ValueOf(b: Balance): real {
    Value(FromColumn(b.onHand), FromColumn(b.averageCost))
  }

  /** The value of the listed rows. */
  function TotalValue(t: Tables, ks: seq<Key>): real {
    if ks == [] then 0.0 else TotalValue(t, ks[..|ks| - 1]) + ValueOf(BalanceOf(t, ks[|ks| - 1]))
  }

  /** What was paid for the receipts. */
  function Paid(ps: seq<MovementRequest>): real {
    if ps == [] then 0.0
    else (if ps[0].unitCost.Some? then Value(ps[0].quantity, ps[0].unitCost.value) else 0.0) + Paid(ps[1..])
  }

  /** How far storing a row that holds b can have moved its value, and the divisions of one receipt of
    * the given base quantity with it. */
  function Slack(b: Balance, quantity: Column): real {
    var onHand, cost := Abs(FromColumn(b.onHand)), Abs(FromColumn(b.averageCost));
    0.0000005 * (onHand + cost + 0.0000015) + 0.00000000000000005 * (onHand + FromColumn(quantity) + 0.000001)
  }

  /** The row before storage is not empty; a receipt that brings negative stock to exactly zero is the
    * only one that can leave it so. */
  predicate LeavesStock(cat: Catalogue, t: Tables, p: MovementRequest)
    requires cat.Valid()
  {
    Resolve(cat, p).Ok? ==> FromColumn(BalanceOf(t, p.key).onHand) + BaseQuantity(p, Resolve(cat, p).value) != 0.0
  }

  /** The row a receipt stores, the entry it appends, and how far its value is from what it should be. */
  lemma {:induction false} StoredReceipt(cat: Catalogue, t: Tables, p: MovementRequest, t': Tables)
    returns (row: Row, quantity: real)
    requires cat.Valid() && RecordMovement(cat, t, p) == Ok(t') && p.movementType in {Opening, PurchaseReceipt}
    requires LeavesStock(cat, t, p)
    ensures p.unitCost.Some? && t'.movements != [] && Last(t'.movements).baseQuantity == ToColumn(quantity)
    ensures BalanceOf(t', p.key).onHand == ToColumn(row.onHand)
    ensures BalanceOf(t', p.key).averageCost == ToColumn(row.averageCost)
    ensures Abs(Value(row.onHand, row.averageCost)
                - (ValueOf(BalanceOf(t, p.key)) + Value(p.quantity, p.unitCost.value)))
            <= 0.00000000000000005 * Abs(row.onHand) + 0.00000000000000005 * quantity
    ensures forall k | k != p.key :: BalanceOf(t', k) == BalanceOf(t, k)
  {
    var bal, factor := BalanceOf(t, p.key), Resolve(cat, p).value;
    row := NewRow(cat, bal, p, factor).value;
    quantity := BaseQuantity(p, factor);
    ReceiptRow(cat, bal, p, factor, row);
    hide Value, OnReceipt, ToColumn, FromColumn;
    ReceiptConservesValue(cat, bal, p, factor, row);
  }

  /** The errors of one receipt, measured on what is stored rather than on what was before storage. */
  lemma {:induction false} ErrorsWithinSlack(b: Balance, quantity: Column, row: Row, n: real)
    requires b.onHand == ToColumn(row.onHand) && b.averageCost == ToColumn(row.averageCost) && quantity == ToColumn(n)
    ensures 0.0000005 * (Abs(row.onHand) + Abs(row.averageCost) + 0.0000005)
            + (0.00000000000000005 * Abs(row.onHand) + 0.00000000000000005 * n) <= Slack(b, quantity)
  {
    ToColumnIsNearest(row.onHand);
    ToColumnIsNearest(row.averageCost);
    ToColumnIsNearest(n);
    hide ToColumn, FromColumn;
  }

  lemma {:induction false} TwoErrors(x: real, y: real, z: real, a: real, b: real, bound: real)
    requires Abs(x - y) <= a && Abs(y - z) <= b && a + b <= bound
    ensures Abs(x - z) <= bound
  {
  }

  /** One receipt adds what was paid for it to its row's stored value, up to the slack of the row it
    * leaves. */
  lemma {:induction false} ReceiptAddsValue(cat: Catalogue, t: Tables, p: MovementRequest, t': Tables)
    requires cat.Valid() && RecordMovement(cat, t, p) == Ok(t') && p.movementType in {Opening, PurchaseReceipt}
    requires LeavesStock(cat, t, p)
    ensures p.unitCost.Some? && t'.movements != []
    ensures Abs(ValueOf(BalanceOf(t', p.key)) - (ValueOf(BalanceOf(t, p.key)) + Value(p.quantity, p.unitCost.value)))
            <= Slack(BalanceOf(t', p.key), Last(t'.movements).baseQuantity)
    ensures forall k | k != p.key :: BalanceOf(t', k) == BalanceOf(t, k)
  {
    var row, quantity := StoredReceipt(cat, t, p, t');
    StorageShiftsValue(row);
    ErrorsWithinSlack(BalanceOf(t', p.key), Last(t'.movements).baseQuantity, row, quantity);
    var stored := ValueOf(BalanceOf(t', p.key));
    assert stored == Value(FromColumn(ToColumn(row.onHand)), FromColumn(ToColumn(row.averageCost)));
    hide *;
    TwoErrors(stored, Value(row.onHand, row.averageCost),
              ValueOf(BalanceOf(t, p.key)) + Value(p.quantity, p.unitCost.value),
              0.0000005 * (Abs(row.onHand) + Abs(row.averageCost) + 0.0000005),
              0.00000000000000005 * Abs(row.onHand) + 0.00000000000000005 * quantity,
              Slack(BalanceOf(t', p.key), Last(t'.movements).baseQuantity));
  }

  lemma {:induction false} TotalShift(t: Tables, t': Tables, ks: seq<Key>, k: Key)
    requires NoDuplicates(ks) && forall j | j != k :: BalanceOf(t', j) == BalanceOf(t, j)
    ensures TotalValue(t', ks) - TotalValue(t, ks)
            == if k in ks then ValueOf(BalanceOf(t', k)) - ValueOf(BalanceOf(t, k)) else 0.0
    decreases |ks|
  {
    if ks != [] {
      hide ValueOf, BalanceOf;
      var front, last := ks[..|ks| - 1], ks[|ks| - 1];
      TotalShift(t, t', front, k);
      assert last !in front;
      assert forall x :: x in ks <==> x in front || x == last;
    }
  }

  /** A chain of receipts, none of which leaves its row empty. */
  predicate AllReceipts(cat: Catalogue, t: Tables, ps: seq<MovementRequest>)
    requires cat.Valid()
    decreases |ps|
  {
    ps == [] || (ps[0].movementType in {Opening, PurchaseReceipt} && LeavesStock(cat, t, ps[0])
                 && (RecordMovement(cat, t, ps[0]).Ok?
                     ==> AllReceipts(cat, RecordMovement(cat, t, ps[0]).value, ps[1..])))
  }

  /** The slack of each receipt of a chain, on the row it leaves. */
  function ChainSlack(cat: Catalogue, t: Tables, ps: seq<MovementRequest>): real
    requires cat.Valid()
    decreases |ps|
  {
    if ps == [] || RecordMovement(cat, t, ps[0]).Err? then 0.0
    else
      var next := RecordMovement(cat, t, ps[0]).value;
      Slack(BalanceOf(next, ps[0].key), Last(next.movements).baseQuantity) + ChainSlack(cat, next, ps[1..])
  }

  lemma {:induction false} SumOfErrors(x: real, y: real, z: real, a: real, b: real, e: real, f: real)
    requires Abs(y - x - a) <= e && Abs(z - y - b) <= f
    ensures Abs(z - x - (a + b)) <= e + f
  {
  }

  lemma {:induction false} ReceiptAddsToTotal(cat: Catalogue, t: Tables, p: MovementRequest, t': Tables, ks: seq<Key>)
    requires cat.Valid() && RecordMovement(cat, t, p) == Ok(t') && p.movementType in {Opening, PurchaseReceipt}
    requires LeavesStock(cat, t, p) && NoDuplicates(ks) && p.key in ks
    ensures p.unitCost.Some? && t'.movements != []
    ensures Abs(TotalValue(t', ks) - TotalValue(t, ks) - Value(p.quantity, p.unitCost.value))
            <= Slack(BalanceOf(t', p.key), Last(t'.movements).baseQuantity)
  {
    ReceiptAddsValue(cat, t, p, t');
    TotalShift(t, t', ks, p.key);
    hide *;
    assert TotalValue(t', ks) - TotalValue(t, ks) - Value(p.quantity, p.unitCost.value)
           == ValueOf(BalanceOf(t', p.key)) - (ValueOf(BalanceOf(t, p.key)) + Value(p.quantity, p.unitCost.value));
  }

  /** A chain of receipts raises the stored value of any list of rows that holds theirs by what was paid,
    * up to the slack of each. */
  lemma {:induction false} ReceiptsAddValue(cat: Catalogue, t: Tables, ps: seq<MovementRequest>, t': Tables,
                                            ks: seq<Key>)
    requires cat.Valid() && RecordAll(cat, t, ps) == Ok(t') && AllReceipts(cat, t, ps)
    requires NoDuplicates(ks) && forall p <- ps :: p.key in ks
    ensures Abs(TotalValue(t', ks) - TotalValue(t, ks) - Paid(ps)) <= ChainSlack(cat, t, ps)
    decreases |ps|
  {
    hide RecordMovement, ValueOf, Value, Slack, BalanceOf, LeavesStock, TotalValue, NoDuplicates;
    if ps != [] {
      var p, next := ps[0], RecordMovement(cat, t, ps[0]).value;
      assert p in ps;
      ReceiptAddsToTotal(cat, t, p, next, ks);
      ReceiptsAddValue(cat, next, ps[1..], t', ks);
      var slack := Slack(BalanceOf(next, p.key), Last(next.movements).baseQuantity);
      assert ChainSlack(cat, t, ps) == slack + ChainSlack(cat, next, ps[1..]);
      assert Paid(ps) == Value(p.quantity, p.unitCost.value) + Paid(ps[1..]);
      hide *;
      SumOfErrors(TotalValue(t, ks), TotalValue(next, ks), TotalValue(t', ks),
                  Value(p.quantity, p.unitCost.value), Paid(ps[1..]), slack, ChainSlack(cat, next, ps[1..]));
    }
  }
}
