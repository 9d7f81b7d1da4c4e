/** What one stock operation guarantees: value, quantity, cost and reservations. */
module StockLaws {
  import opened Wrappers
  import opened Decimals
  import opened Stock

  // ---------- The cache and the ledger ----------

  /** A movement's signed base quantity. */
  function Signed(mv: Movement): Column {
    if DirectionOf(mv.movementType) == Some(In) then mv.baseQuantity else -mv.baseQuantity
  }

  /** On-hand quantity replayed from the ledger. */
  function LedgerSum(ms: seq<Movement>, k: Key): Column {
    if ms == [] then 0
    else LedgerSum(ms[..|ms| - 1], k) + (if Last(ms).key == k then Signed(Last(ms)) else 0)
  }

  lemma {:induction false} LedgerSumAppend(ms: seq<Movement>, mv: Movement, k: Key)
    ensures LedgerSum(ms + [mv], k) == LedgerSum(ms, k) + (if mv.key == k then Signed(mv) else 0)
  {
    assert (ms + [mv])[..|ms|] == ms;
  }

  /** How far the cached quantity is from the ledger. */
  function Drift(t: Tables, k: Key): Column {
    BalanceOf(t, k).onHand - LedgerSum(t.movements, k)
  }

  /** The base quantity falls half-way between two storable quantities. */
  predicate TiedQuantity(p: MovementRequest, factor: real) {
    IsTie(BaseQuantity(p, factor) * 1000000.0)
  }

  /** The movement leaves the quantity on the side of zero that rounds the other way than
    * the ledger entry does: above zero going out, below zero coming in. */
  predicate RoundsApart(bal: Balance, p: MovementRequest, factor: real) {
    var after := if DirectionOf(p.movementType) == Some(In) then FromColumn(bal.onHand) + BaseQuantity(p, factor)
                 else BaseQuantity(p, factor) - FromColumn(bal.onHand);
    TiedQuantity(p, factor) && after < 0.0
  }

  lemma {:induction false} ScaledQuantities(n: int, x: real)
    ensures (FromColumn(n) + x) * 1000000.0 == n as real + x * 1000000.0
    ensures (FromColumn(n) - x) * 1000000.0 == n as real - x * 1000000.0
  {
  }

  lemma {:induction false} StoredQuantity(bal: Balance, p: MovementRequest, factor: real)
    requires DirectionOf(p.movementType).Some? && BaseQuantity(p, factor) > 0.0
    ensures var x := BaseQuantity(p, factor);
            var q := FromColumn(bal.onHand);
            if DirectionOf(p.movementType) == Some(In)
            then ToColumn(q + x) == bal.onHand + ToColumn(x) - (if RoundsApart(bal, p, factor) then 1 else 0)
            else ToColumn(q - x) == bal.onHand - ToColumn(x) + (if RoundsApart(bal, p, factor) then 1 else 0)
  {
    var x := BaseQuantity(p, factor);
    ScaledQuantities(bal.onHand, x);
    RoundedSum(bal.onHand, x * 1000000.0);
  }

  lemma {:induction false} RoundedSum(n: int, y: real)
    requires y > 0.0
    ensures HalfAway(n as real + y) == n + HalfAway(y) - (if IsTie(y) && n as real + y < 0.0 then 1 else 0)
    ensures HalfAway(n as real - y) == n - HalfAway(y) + (if IsTie(y) && n as real - y > 0.0 then 1 else 0)
  {
    HalfAwayShift(n, y);
    HalfAwayShift(n, -y);
    HalfAwayIsNearest(y);
    assert IsTie(-y) <==> IsTie(y) by {
      if y == y.Floor as real { assert (-y).Floor == -y.Floor; } else { assert (-y).Floor == -y.Floor - 1; }
    }
  }

  /** A movement touches one row and appends one entry, and the cache follows the ledger
    * exactly unless the quantity is a tie that the two columns round apart; then they
    * part by one millionth. */
  lemma {:induction false} MovementDrift(cat: Catalogue, t: Tables, p: MovementRequest, t': Tables)
    requires cat.Valid() && RecordMovement(cat, t, p) == Ok(t')
    ensures var bal, factor := BalanceOf(t, p.key), Resolve(cat, p).value;
            var apart := if RoundsApart(bal, p, factor) then 1 else 0;
            Drift(t', p.key) == Drift(t, p.key) + (if DirectionOf(p.movementType) == Some(In) then -apart else apart)
    ensures forall k | k != p.key :: BalanceOf(t', k) == BalanceOf(t, k) && Drift(t', k) == Drift(t, k)
    ensures Drift(t', p.key) == Drift(t, p.key) <==> !RoundsApart(BalanceOf(t, p.key), p, Resolve(cat, p).value)
  {
    var bal, factor := BalanceOf(t, p.key), Resolve(cat, p).value;
    assert BaseQuantity(p, factor) > 0.0;
    var row := NewRow(cat, bal, p, factor).value;
    StoredQuantity(bal, p, factor);
    forall k { LedgerSumAppend(t.movements, Last(t'.movements), k); }
  }

  // ---------- Transfers ----------

  /** The row a non-receipt movement stores: its quantity shifts, its cost does not. */
  lemma {:induction false} CostlessMovement(cat: Catalogue, t: Tables, p: MovementRequest, t': Tables)
    requires cat.Valid() && RecordMovement(cat, t, p) == Ok(t') && !IsReceipt(p.movementType)
    ensures var bal, factor := BalanceOf(t, p.key), Resolve(cat, p).value;
            var moved := ToColumn(BaseQuantity(p, factor));
            var apart := if RoundsApart(bal, p, factor) then 1 else 0;
            BalanceOf(t', p.key) == bal.(onHand := if DirectionOf(p.movementType) == Some(In)
                                                   then bal.onHand + moved - apart
                                                   else bal.onHand - moved + apart)
    ensures forall k | k != p.key :: BalanceOf(t', k) == BalanceOf(t, k)
    ensures |t'.movements| == |t.movements| + 1
  {
    var bal, factor := BalanceOf(t, p.key), Resolve(cat, p).value;
    assert BaseQuantity(p, factor) > 0.0;
    var row := NewRow(cat, bal, p, factor).value;
    StoredQuantity(bal, p, factor);
    ColumnRoundTrip(bal.averageCost);
  }

  /** A completed transfer moves quantity and leaves both average costs alone; the total over
    * the two warehouses is unchanged exactly when the two legs do not round apart alone. */
  lemma {:induction false} TransferTotal(cat: Catalogue, t: Tables, p: TransferRequest, t': Tables)
    requires cat.Valid() && RecordTransfer(cat, t, p) == Ok(t')
    ensures var a, b := OutLeg(p).key, InLeg(p).key;
            var factor := Resolve(cat, OutLeg(p)).value;
            && (BalanceOf(t', a).onHand + BalanceOf(t', b).onHand == BalanceOf(t, a).onHand + BalanceOf(t, b).onHand
                <==> (RoundsApart(BalanceOf(t, a), OutLeg(p), factor)
                      <==> RoundsApart(BalanceOf(t, b), InLeg(p), factor)))
            && BalanceOf(t', a).averageCost == BalanceOf(t, a).averageCost
            && BalanceOf(t', b).averageCost == BalanceOf(t, b).averageCost
            && (forall k | k != a && k != b :: BalanceOf(t', k) == BalanceOf(t, k))
            && |t'.movements| == |t.movements| + 2
  {
    hide RecordMovement, RecordTransfer, Resolve, RoundsApart, ToColumn, BaseQuantity;
    var t1 := TransferLegs(cat, t, p, t');
    LegsConvertAlike(cat, p);
    CostlessMovement(cat, t, OutLeg(p), t1);
    CostlessMovement(cat, t1, InLeg(p), t');
  }

  lemma {:induction false} TransferLegs(cat: Catalogue, t: Tables, p: TransferRequest, t': Tables) returns (t1: Tables)
    requires cat.Valid() && RecordTransfer(cat, t, p) == Ok(t')
    ensures RecordMovement(cat, t, OutLeg(p)) == Ok(t1) && RecordMovement(cat, t1, InLeg(p)) == Ok(t')
    ensures OutLeg(p).key != InLeg(p).key
  {
    hide RecordMovement;
    var ps := [OutLeg(p), InLeg(p)];
    t1 := RecordMovement(cat, t, ps[0]).value;
    assert ps[1..] == [InLeg(p)];
    RecordOne(cat, t1, InLeg(p));
  }

  lemma {:induction false} LegsConvertAlike(cat: Catalogue, p: TransferRequest)
    requires cat.Valid()
    ensures Resolve(cat, InLeg(p)) == Resolve(cat, OutLeg(p))
    ensures forall factor :: BaseQuantity(InLeg(p), factor) == BaseQuantity(OutLeg(p), factor)
  {
  }

  lemma {:induction false} RecordOne(cat: Catalogue, t: Tables, p: MovementRequest)
    requires cat.Valid()
    ensures RecordAll(cat, t, [p]) == RecordMovement(cat, t, p)
  {
    var next := RecordMovement(cat, t, p);
    assert [p][1..] == [];
    if next.Ok? { assert RecordAll(cat, next.value, []) == next; }
  }

  predicate NoDuplicates(ks: seq<Key>) {
    forall i, j | 0 <= i < j < |ks| :: ks[i] != ks[j]
  }

  // ---------- Value ----------

  function Value(quantity: real, cost: real): real {
    quantity * cost
  }

  /** Before storage, a receipt adds its transacted value to the stock value, up to half a unit of the
    * 16th place per base unit then on hand, over or under, and per base unit received.  This holds
    * whichever way round the unit conversion was recorded.  A receipt that brings negative stock to
    * exactly zero is stored at no cost, and so keeps the value exactly when there was none to keep. */
  lemma {:induction false} ReceiptConservesValue(cat: Catalogue, bal: Balance, p: MovementRequest, factor: real,
                                                 row: Row)
    requires cat.Valid() && Resolve(cat, p) == Ok(factor) && NewRow(cat, bal, p, factor) == Ok(row)
    requires IsReceipt(p.movementType)
    ensures var value := Value(FromColumn(bal.onHand), FromColumn(bal.averageCost))
            + Value(p.quantity, p.unitCost.value);
      && (row.onHand != 0.0 ==>
            Abs(Value(row.onHand, row.averageCost) - value)
            <= 0.00000000000000005 * Abs(row.onHand) + 0.00000000000000005 * BaseQuantity(p, factor))
      && (row.onHand == 0.0 ==>
            && row.averageCost == 0.0
            && (Value(row.onHand, row.averageCost) == value <==> value == 0.0))
  {
    ReceiptRow(cat, bal, p, factor, row);
    hide NewRow, Resolve, Div;
    if row.onHand != 0.0 {
      ReceiptValue(FromColumn(bal.onHand), FromColumn(bal.averageCost), p.quantity, factor, p.unitCost.value,
                   BaseQuantity(p, factor));
    }
  }

  lemma {:induction false} ReceiptValue(q: real, a: real, n: real, f: real, u: real, b: real)
    requires q + b != 0.0 && f > 0.0 && b == n * f && b > 0.0
    ensures Abs(Value(q + b, OnReceipt(q, a, b, Div(u, f))) - (Value(q, a) + Value(n, u)))
            <= 0.00000000000000005 * Abs(q + b) + 0.00000000000000005 * b
  {
    hide OnReceipt, Div;
    OnReceiptValue(q, a, b, Div(u, f));
    CostNormalised(n, f, u, b);
    AddErrors((q + b) * OnReceipt(q, a, b, Div(u, f)), q * a, b * Div(u, f), n * u,
              0.00000000000000005 * Abs(q + b), 0.00000000000000005 * b);
  }

  /** Five units owed at a cost of one, received at two: five of value go in and none is left. */
  lemma {:induction false} ReceiptToZeroLosesValue()
    ensures var k := Key(1, 1);
            var cat := Catalogue(map[1 := 1], map[], {k});
            var opening := MovementRequest(k, Opening, 1, 1.0, Some(1.0), Reference("", None));
            var sale := MovementRequest(k, Sale, 1, 6.0, None, Reference("", None));
            var receipt := MovementRequest(k, Opening, 1, 5.0, Some(2.0), Reference("", None));
            var before := RecordAll(cat, EMPTY, [opening, sale]);
      && cat.Valid() && before.Ok? && BalanceOf(before.value, k) == Balance(-5000000, 0, 1000000)
      && Value(-5.0, 1.0) + Value(5.0, 2.0) == 5.0
      && RecordMovement(cat, before.value, receipt).Ok?
      && BalanceOf(RecordMovement(cat, before.value, receipt).value, k) == Balance(0, 0, 0)
  {
    var k := Key(1, 1);
    var cat := Catalogue(map[1 := 1], map[], {k});
    var opening := MovementRequest(k, Opening, 1, 1.0, Some(1.0), Reference("", None));
    var sale := MovementRequest(k, Sale, 1, 6.0, None, Reference("", None));
    var receipt := MovementRequest(k, Opening, 1, 5.0, Some(2.0), Reference("", None));
    Round16Exact(10000000000000000);
    Round16Exact(20000000000000000);
    assert OnReceipt(0.0, 0.0, 1.0, 1.0) == 1.0;
    var one := RecordMovement(cat, EMPTY, opening).value;
    assert BalanceOf(one, k) == Balance(1000000, 0, 1000000);
    assert [opening, sale][1..] == [sale];
    RecordOne(cat, one, sale);
    var two := RecordMovement(cat, one, sale).value;
    assert BalanceOf(two, k) == Balance(-5000000, 0, 1000000);
  }

  lemma {:induction false} AddErrors(x: real, y: real, z: real, w: real, e: real, f: real)
    requires -e <= x - (y + z) <= e && -f <= z - w <= f
    ensures Abs(x - (y + w)) <= e + f
  {
  }

  /** The blended value is the sum of the two values it blends. */
  lemma {:induction false} OnReceiptValue(q: real, a: real, b: real, c: real)
    requires q + b != 0.0
    ensures var total := q + b;
            -(0.00000000000000005 * Abs(total)) <= total * OnReceipt(q, a, b, c) - (q * a + b * c)
                <= 0.00000000000000005 * Abs(total)
  {
    DivTimes(q * a + b * c, q + b);
  }

  /** Converting the quantity one way and the unit cost the other leaves their product. */
  lemma {:induction false} CostNormalised(n: real, f: real, u: real, b: real)
    requires f > 0.0 && b == n * f && b > 0.0
    ensures -(0.00000000000000005 * b) <= b * Div(u, f) - n * u <= 0.00000000000000005 * b
  {
    Quotient(u, f);
    assert u / f * b == n * u by {
      Regroup(u / f, n, f, u);
    }
    Round16IsNearest(u / f);
    ErrorTimes(Div(u, f), u / f, 0.00000000000000005, b, n * u);
  }

  lemma {:induction false} Regroup(v: real, n: real, f: real, u: real)
    requires v * f == u
    ensures v * (n * f) == n * u
  {
    assert v * (n * f) == n * (v * f);
  }

  lemma {:induction false} ReceiptRow(cat: Catalogue, bal: Balance, p: MovementRequest, factor: real, row: Row)
    requires cat.Valid() && Resolve(cat, p) == Ok(factor) && NewRow(cat, bal, p, factor) == Ok(row)
    requires IsReceipt(p.movementType)
    ensures BaseQuantity(p, factor) > 0.0
    ensures var q, a, b := FromColumn(bal.onHand), FromColumn(bal.averageCost), BaseQuantity(p, factor);
            row == Row(q + b, OnReceipt(q, a, b, BaseUnitCost(p, factor)))
  {
    assert BaseQuantity(p, factor) > 0.0;
  }

  /** Storing the row moves its value by at most half a millionth per unit and per unit cost. */
  lemma {:induction false} StorageShiftsValue(row: Row)
    ensures Abs(Value(FromColumn(ToColumn(row.onHand)), FromColumn(ToColumn(row.averageCost)))
                - Value(row.onHand, row.averageCost))
            <= 0.0000005 * (Abs(row.onHand) + Abs(row.averageCost) + 0.0000005)
  {
    ToColumnIsNearest(row.onHand);
    ToColumnIsNearest(row.averageCost);
    var onHand, averageCost := FromColumn(ToColumn(row.onHand)), FromColumn(ToColumn(row.averageCost));
    ProductError(row.onHand, row.averageCost, onHand, averageCost, 0.0000005);
  }

  lemma {:induction false} ProductError(x: real, y: real, x': real, y': real, e: real)
    requires e >= 0.0 && -e <= x' - x <= e && -e <= y' - y <= e
    ensures Abs(Value(x', y') - Value(x, y)) <= e * (Abs(x) + Abs(y) + e)
  {
    hide Value;
    QuantityError(x', x, y', e);
    CostError(x, y', y, e);
    SumOfErrors(Value(x', y'), Value(x, y'), Value(x, y), e, Abs(x), Abs(y), Abs(y'));
  }

  lemma {:induction false} QuantityError(x: real, y: real, cost: real, e: real)
    requires -e <= x - y <= e
    ensures -(e * Abs(cost)) <= Value(x, cost) - Value(y, cost) <= e * Abs(cost)
  {
    SignedErrorTimes(x, y, e, cost, Value(x, cost), Value(y, cost));
  }

  lemma {:induction false} CostError(quantity: real, x: real, y: real, e: real)
    requires -e <= x - y <= e
    ensures -(e * Abs(quantity)) <= Value(quantity, x) - Value(quantity, y) <= e * Abs(quantity)
  {
    SignedErrorTimes(x, y, e, quantity, Value(quantity, x), Value(quantity, y));
  }

  lemma {:induction false} SumOfErrors(u: real, v: real, w: real, e: real, x: real, y: real, z: real)
    requires e >= 0.0 && 0.0 <= z <= y + e && -(e * z) <= u - v <= e * z && -(e * x) <= v - w <= e * x
    ensures Abs(u - w) <= e * (x + y + e)
  {
    TimesBetween(e, z, 0.0, y + e, e * z);
    assert e * (x + y + e) == e * x + e * (y + e);
  }

  lemma {:induction false} SignedErrorTimes(x: real, y: real, e: real, t: real, xt: real, yt: real)
    requires -e <= x - y <= e && xt == x * t && yt == y * t
    ensures -(e * Abs(t)) <= xt - yt <= e * Abs(t)
  {
    ErrorTimes(x, y, e, Abs(t), y * Abs(t));
  }

  /** The average of a receipt under exact division. */
  function ExactAverage(q: real, a: real, b: real, c: real): real
    requires q + b != 0.0
  {
    (q * a + b * c) / (q + b)
  }

  function ExactUnitCost(u: real, factor: real): real
    requires factor > 0.0
  {
    u / factor
  }

  /** When both divisions come out on the 16th place, value is conserved exactly. */
  lemma {:induction false} ExactReceiptConservesValue(cat: Catalogue, bal: Balance, p: MovementRequest, factor: real,
                                                      row: Row)
    requires cat.Valid() && Resolve(cat, p) == Ok(factor) && NewRow(cat, bal, p, factor) == Ok(row)
    requires IsReceipt(p.movementType)
    requires var q, a, b := FromColumn(bal.onHand), FromColumn(bal.averageCost), BaseQuantity(p, factor);
      && q + b != 0.0
      && BaseUnitCost(p, factor) == ExactUnitCost(p.unitCost.value, factor)
      && row.averageCost == ExactAverage(q, a, b, BaseUnitCost(p, factor))
    ensures Value(row.onHand, row.averageCost)
            == Value(FromColumn(bal.onHand), FromColumn(bal.averageCost)) + Value(p.quantity, p.unitCost.value)
  {
    hide NewRow, Value, ExactAverage, ExactUnitCost, OnReceipt;
    ReceiptRow(cat, bal, p, factor, row);
    ExactBlend(FromColumn(bal.onHand), FromColumn(bal.averageCost), p.quantity, p.unitCost.value, factor,
               BaseQuantity(p, factor));
  }

  lemma {:induction false} ExactBlend(q: real, a: real, n: real, u: real, f: real, b: real)
    requires f > 0.0 && b == n * f && q + b != 0.0
    ensures Value(q + b, ExactAverage(q, a, b, ExactUnitCost(u, f))) == Value(q, a) + Value(n, u)
  {
    Quotient(q * a + b * (u / f), q + b);
    Quotient(u, f);
    Regroup(u / f, n, f, u);
  }

  // ---------- Average cost ----------

  lemma {:induction false} TimesBetween(t: real, x: real, lo: real, hi: real, tx: real)
    requires t >= 0.0 && lo <= x <= hi && tx == t * x
    ensures lo * t <= tx <= hi * t
  {
  }

  lemma {:induction false} FirstReceiptSetsCost(a: real, b: real, c: real)
    requires b > 0.0
    ensures OnReceipt(0.0, a, b, c) == Round16(c)
  {
    assert (0.0 * a + b * c) / (0.0 + b) == c by {
      Quotient(b * c, b);
      CancelPositive(b * c / b, c, b);
      CancelPositive(c, b * c / b, b);
    }
  }

  lemma {:induction false} BlendSums(q: real, b: real, qa: real, bc: real, lo: real, hi: real)
    requires lo * q <= qa <= hi * q && lo * b <= bc <= hi * b
    ensures lo * (q + b) <= qa + bc <= hi * (q + b)
  {
  }

  lemma {:induction false} Blend(q: real, a: real, b: real, c: real, lo: real, hi: real, qa: real, bc: real)
    requires q >= 0.0 && b > 0.0 && lo <= c <= hi && (q == 0.0 || lo <= a <= hi)
    requires qa == q * a && bc == b * c
    ensures lo <= (qa + bc) / (q + b) <= hi
  {
    TimesBetween(b, c, lo, hi, bc);
    TimesBetween(q, if q == 0.0 then lo else a, lo, hi, qa);
    BlendSums(q, b, qa, bc, lo, hi);
    QuotientBetween(qa + bc, q + b, lo, hi);
  }

  /** A receipt keeps the stored average between the stored smallest and largest cost. */
  lemma {:induction false} ReceiptKeepsAverageBetween(cat: Catalogue, bal: Balance, p: MovementRequest, factor: real,
                                                      row: Row,
        lo: real, hi: real)
    requires cat.Valid() && Resolve(cat, p) == Ok(factor) && NewRow(cat, bal, p, factor) == Ok(row)
    requires IsReceipt(p.movementType) && lo <= BaseUnitCost(p, factor) <= hi
    requires Round16(lo) == lo && Round16(hi) == hi
    requires bal.onHand == 0 || (bal.onHand > 0 && ToColumn(lo) <= bal.averageCost <= ToColumn(hi))
    ensures ToColumn(lo) <= ToColumn(row.averageCost) <= ToColumn(hi)
  {
    ReceiptRow(cat, bal, p, factor, row);
    BlendedColumn(bal.onHand, bal.averageCost, BaseQuantity(p, factor), BaseUnitCost(p, factor), lo, hi);
  }

  lemma {:induction false} BlendedColumn(onHand: Column, averageCost: Column, b: real, c: real, lo: real, hi: real)
    requires b > 0.0 && lo <= c <= hi && Round16(lo) == lo && Round16(hi) == hi
    requires onHand == 0 || (onHand > 0 && ToColumn(lo) <= averageCost <= ToColumn(hi))
    ensures ToColumn(lo) <= ToColumn(OnReceipt(FromColumn(onHand), FromColumn(averageCost), b, c)) <= ToColumn(hi)
  {
    var least := Least(FromColumn(ToColumn(lo)), lo);
    var most := -Least(-FromColumn(ToColumn(hi)), -hi);
    OnReceiptBetween(FromColumn(onHand), FromColumn(averageCost), b, c, least, most);
    var r := OnReceipt(FromColumn(onHand), FromColumn(averageCost), b, c);
    Round16OfColumn(ToColumn(lo));
    Round16OfColumn(ToColumn(hi));
    ColumnRoundTrip(ToColumn(lo));
    ColumnRoundTrip(ToColumn(hi));
    ToColumnMonotone(least, r);
    ToColumnMonotone(r, most);
  }

  lemma {:induction false} OnReceiptBetween(q: real, a: real, b: real, c: real, lo: real, hi: real)
    requires q >= 0.0 && b > 0.0 && lo <= c <= hi && (q == 0.0 || lo <= a <= hi)
    ensures Round16(lo) <= OnReceipt(q, a, b, c) <= Round16(hi)
  {
    Blend(q, a, b, c, lo, hi, q * a, b * c);
    Round16Monotone(lo, (q * a + b * c) / (q + b));
    Round16Monotone((q * a + b * c) / (q + b), hi);
  }

  function Least(x: real, y: real): real {
    if x <= y then x else y
  }

  lemma {:induction false} Round16OfColumn(c: Column)
    ensures Round16(FromColumn(c)) == FromColumn(c)
  {
    assert FromColumn(c) == (c * 10000000000) as real / 10000000000000000.0;
    Round16Exact(c * 10000000000);
  }

  // ---------- Reservations ----------

  /** Each row's reserved quantity is the sum of the active reservations of its key. */
  ghost predicate ReservedAgrees(t: Tables) {
    forall k :: BalanceOf(t, k).reserved == SumActive(t.reservations, k)
  }

  /** The reservations table only holds what its CHECK allows. */
  ghost predicate ReservationsPositive(t: Tables) {
    forall r <- t.reservations :: r.quantity > 0
  }

  lemma {:induction false} SumActiveAppend(rs: seq<Reservation>, r: Reservation, k: Key)
    ensures SumActive(rs + [r], k) == SumActive(rs, k) + (if r.key == k && r.status.Active? then r.quantity else 0)
  {
    assert (rs + [r])[..|rs|] == rs;
  }

  lemma {:induction false} SumActiveRelease(rs: seq<Reservation>, id: nat, k: Key)
    requires id < |rs| && rs[id].status.Active?
    ensures SumActive(rs[id := rs[id].(status := Released)], k)
            == SumActive(rs, k) - (if rs[id].key == k then rs[id].quantity else 0)
    decreases |rs|
  {
    var after := rs[id := rs[id].(status := Released)];
    var n := |rs| - 1;
    if id == n {
      assert after[..n] == rs[..n];
    } else {
      assert after[..n] == rs[..n][id := rs[id].(status := Released)];
      SumActiveRelease(rs[..n], id, k);
    }
  }

  /** Quantities and costs of every row, and the ledger, are as they were. */
  ghost predicate StockUntouched(t: Tables, t': Tables) {
    t'.movements == t.movements
    && forall k :: BalanceOf(t', k) == BalanceOf(t, k).(reserved := BalanceOf(t', k).reserved)
  }

  /** A reservation is made exactly if its quantity is positive, still so as stored, and no more than what
    * is on hand and not reserved; it appends one active row and touches no stock. */
  lemma {:induction false} WhenReserved(t: Tables, k: Key, quantity: real)
    ensures var r, bal := Reserve(t, k, quantity), BalanceOf(t, k);
      && (r.Ok? <==> ToColumn(quantity) > 0 && quantity <= FromColumn(bal.onHand) - FromColumn(bal.reserved))
      && (r.Ok? ==> StockUntouched(t, r.value)
                    && r.value.reservations == t.reservations + [Reservation(k, ToColumn(quantity), Active)])
  {
    hide ToColumn, SumActive;
    FreeColumns(BalanceOf(t, k));
    NonPositiveColumn(quantity);
    hide FromColumn, Available;
  }

  lemma {:induction false} NonPositiveColumn(quantity: real)
    ensures quantity <= 0.0 ==> ToColumn(quantity) <= 0
  {
    if quantity <= 0.0 { ToColumnMonotone(quantity, FromColumn(0)); ColumnRoundTrip(0); }
  }

  lemma {:induction false} FreeColumns(bal: Balance)
    ensures FromColumn(Available(bal)) == FromColumn(bal.onHand) - FromColumn(bal.reserved)
  {
  }

  /** A reservation is released exactly if it is active, whatever key the caller names; it is kept as
    * released and no stock is touched. */
  lemma {:induction false} WhenReleased(t: Tables, id: int, k: Key)
    ensures var r, held := ReleaseReservation(t, id, k), t.reservations;
      && (r.Ok? <==> 0 <= id < |held| && held[id].status == Active)
      && (r.Ok? ==> StockUntouched(t, r.value)
                    && r.value.reservations == held[id := Reservation(held[id].key, held[id].quantity, Released)])
  {
    hide SumActive;
  }

  lemma {:induction false} ReserveAgrees(t: Tables, k: Key, quantity: real, t': Tables)
    requires Reserve(t, k, quantity) == Ok(t') && ReservedAgrees(t)
    ensures ReservedAgrees(t')
    ensures BalanceOf(t', k).reserved == BalanceOf(t, k).reserved + ToColumn(quantity) <= BalanceOf(t', k).onHand
  {
    forall k' { SumActiveAppend(t.reservations, Last(t'.reservations), k'); }
    var free := Available(BalanceOf(t, k));
    ToColumnMonotone(quantity, FromColumn(free));
    ColumnRoundTrip(free);
  }

  /** Releasing under caller-supplied keys keeps the reserved quantities right exactly when the
    * keys are the reservation's own. */
  lemma {:induction false} ReleaseAgrees(t: Tables, id: int, k: Key, t': Tables)
    requires ReleaseReservation(t, id, k) == Ok(t') && ReservedAgrees(t) && ReservationsPositive(t)
    ensures ReservedAgrees(t') <==> t.reservations[id].key == k
  {
    var own := t.reservations[id].key;
    assert t.reservations[id] in t.reservations;
    forall k' { SumActiveRelease(t.reservations, id, k'); }
    SumActiveRelease(t.reservations, id, own);
    if own == k {
      forall k' ensures BalanceOf(t', k').reserved == SumActive(t'.reservations, k') {
        assert BalanceOf(t, k').reserved == SumActive(t.reservations, k');
      }
    } else {
      assert BalanceOf(t', own).reserved == SumActive(t.reservations, own);
      assert BalanceOf(t', own).reserved != SumActive(t'.reservations, own);
    }
  }
}
