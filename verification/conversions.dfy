/** What a recorded movement does, told from its request and the recorded unit conversions alone. */
module Conversions {
  import opened Wrappers
  import opened Decimals
  import opened Stock
  import opened StockLaws

  /** The types that add to stock: openings, purchases, what comes back from customers, and the inward
    * half of transfers, adjustments and assemblies. */
  const INWARD: set<MovementType> := {Opening, PurchaseReceipt, SaleReturn, TransferIn, AdjustmentIn, AssemblyIn}

  /** The types that take from stock: sales, what goes back to suppliers, losses, and the outward half of
    * transfers, adjustments and assemblies. */
  const OUTWARD: set<MovementType> :=
    {Sale, PurchaseReturn, Damage, Expiry, TransferOut, AdjustmentOut, AssemblyOut}

  /** The units are the same, or a conversion between them is recorded in one direction or the other. */
  predicate Convertible(cat: Catalogue, p: MovementRequest) {
    p.key.variant in cat.baseUnit &&
    var base := cat.baseUnit[p.key.variant];
    p.unit == base || (p.unit, base) in cat.conversions || (base, p.unit) in cat.conversions
  }

  /** What can be known of the base quantity.  A recorded number of base units per transacted unit
    * multiplies; a recorded number of transacted units per base unit divides, up to half a unit of the
    * 16th place in the inverse. */
  predicate IsBaseQuantity(cat: Catalogue, p: MovementRequest, quantity: real)
    requires Convertible(cat, p)
  {
    var base := cat.baseUnit[p.key.variant];
    if p.unit == base then quantity == p.quantity
    else if (p.unit, base) in cat.conversions then quantity == p.quantity * FromColumn(cat.conversions[(p.unit, base)])
    else
      var perBase := FromColumn(cat.conversions[(base, p.unit)]);
      Abs(quantity * perBase - p.quantity) <= p.quantity * (0.00000000000000005 * perBase)
  }

  lemma {:induction false} InverseTimes(n: real, c: real)
    requires n > 0.0 && c > 0.0
    ensures Abs(n * Invert(c) * c - n) <= n * (0.00000000000000005 * c)
  {
    Quotient(1.0, c);
    Round16IsNearest(1.0 / c);
    ErrorTimes(Invert(c), 1.0 / c, 0.00000000000000005, c, 1.0);
    var e := Invert(c) * c - 1.0;
    Scaled(n, Invert(c), c, e, 0.00000000000000005 * c);
  }

  lemma {:induction false} Scaled(n: real, i: real, c: real, e: real, bound: real)
    requires n > 0.0 && e == i * c - 1.0 && -bound <= e <= bound
    ensures Abs(n * i * c - n) <= n * bound
  {
    assert n * i * c - n == n * e;
    assert n * (bound - e) >= 0.0 && n * (bound + e) >= 0.0;
  }

  lemma {:induction false} ResolvedQuantity(cat: Catalogue, p: MovementRequest)
    requires cat.Valid() && Resolve(cat, p).Ok?
    ensures Convertible(cat, p) && IsBaseQuantity(cat, p, BaseQuantity(p, Resolve(cat, p).value))
  {
    var base := cat.baseUnit[p.key.variant];
    if p.unit != base && (p.unit, base) !in cat.conversions {
      InverseTimes(p.quantity, FromColumn(cat.conversions[(base, p.unit)]));
    }
  }

  /** A movement is recorded exactly if its type is known, its quantity is positive and still so in both
    * columns, a receipt says what it cost, the product and a conversion are known, and stock suffices
    * where the policy forbids less than none. */
  lemma {:induction false} WhenRecorded(cat: Catalogue, t: Tables, p: MovementRequest)
    requires cat.Valid()
    ensures Resolve(cat, p).Ok? <==>
      && (p.movementType in INWARD || p.movementType in OUTWARD) && p.quantity > 0.0
      && (p.movementType in {Opening, PurchaseReceipt} ==> p.unitCost.Some?) && Convertible(cat, p)
    ensures RecordMovement(cat, t, p).Ok? <==>
      && Resolve(cat, p).Ok? && ToColumn(p.quantity) > 0
      && var quantity := BaseQuantity(p, Resolve(cat, p).value);
         && ToColumn(quantity) > 0
         && (p.movementType in OUTWARD && p.key !in cat.allowNegative
             ==> quantity <= FromColumn(BalanceOf(t, p.key).onHand))
  {
    hide ToColumn;
  }

  /** A recorded movement appends one entry that says what was asked for and the base quantity as stored,
    * and moves its row by that quantity, up or down as its type says, or one millionth less where the
    * two round apart. */
  lemma {:induction false} RecordedMovement(cat: Catalogue, t: Tables, p: MovementRequest, t': Tables)
    returns (quantity: real)
    requires cat.Valid() && RecordMovement(cat, t, p) == Ok(t')
    ensures Convertible(cat, p) && IsBaseQuantity(cat, p, quantity)
    ensures t'.movements == t.movements
            + [Movement(p.key, p.movementType, p.unit, ToColumn(p.quantity), ToColumn(quantity),
                        if p.unitCost.Some? then Some(ToColumn(p.unitCost.value)) else None, p.reference)]
    ensures var before, after := BalanceOf(t, p.key).onHand, BalanceOf(t', p.key).onHand;
      && (p.movementType in INWARD || p.movementType in OUTWARD)
      && (p.movementType in INWARD ==> after == ToColumn(FromColumn(before) + quantity)
                                       && ToColumn(quantity) - 1 <= after - before <= ToColumn(quantity))
      && (p.movementType in OUTWARD ==> after == ToColumn(FromColumn(before) - quantity)
                                        && ToColumn(quantity) - 1 <= before - after <= ToColumn(quantity))
    ensures t'.reservations == t.reservations && BalanceOf(t', p.key).reserved == BalanceOf(t, p.key).reserved
    ensures forall k | k != p.key :: BalanceOf(t', k) == BalanceOf(t, k)
  {
    var factor := Resolve(cat, p).value;
    quantity := BaseQuantity(p, factor);
    ResolvedQuantity(cat, p);
    StoredQuantity(BalanceOf(t, p.key), p, factor);
    hide ToColumn, RoundsApart, IsBaseQuantity;
  }

  /** What each error of a movement says. */
  lemma {:induction false} ErrorsTell(cat: Catalogue, t: Tables, p: MovementRequest)
    requires cat.Valid()
    ensures var r := RecordMovement(cat, t, p);
      && (r == Err(InvalidMovementType) ==> p.movementType !in INWARD && p.movementType !in OUTWARD)
      && (r == Err(QuantityNotPositive) ==> p.quantity <= 0.0)
      && (r == Err(UnitCostRequired) ==> p.movementType in {Opening, PurchaseReceipt} && p.unitCost == None)
      && (r == Err(UnknownVariant) ==> p.key.variant !in cat.baseUnit)
      && (r == Err(NoConversion) ==> p.key.variant in cat.baseUnit && !Convertible(cat, p))
      && (r == Err(InsufficientStock) ==>
            && p.movementType in OUTWARD && p.key !in cat.allowNegative && Resolve(cat, p).Ok?
            && BaseQuantity(p, Resolve(cat, p).value) > FromColumn(BalanceOf(t, p.key).onHand))
      && (r == Err(CheckViolation) ==>
            Resolve(cat, p).Ok? && (ToColumn(p.quantity) <= 0 || ToColumn(BaseQuantity(p, Resolve(cat, p).value)) <= 0))
      && (r.Err? ==> r.error in {InvalidMovementType, QuantityNotPositive, UnitCostRequired, UnknownVariant,
                                 NoConversion, InsufficientStock, CheckViolation})
  {
    hide ToColumn, FromColumn;
  }

  /** What a receipt costs per base unit is blended in; every other movement leaves the average cost. */
  lemma {:induction false} OnlyReceiptsCost(cat: Catalogue, t: Tables, p: MovementRequest, t': Tables)
    requires cat.Valid() && RecordMovement(cat, t, p) == Ok(t') && p.movementType !in {Opening, PurchaseReceipt}
    ensures BalanceOf(t', p.key).averageCost == BalanceOf(t, p.key).averageCost
  {
    ColumnRoundTrip(BalanceOf(t, p.key).averageCost);
    hide ToColumn, FromColumn;
  }

  // ---------- Adjustments ----------

  /** Each line appends its entry at the adjusted warehouse, as it was entered. */
  predicate IsEntryOf(warehouse: Uuid, l: AdjustmentLine, reference: Reference, mv: Movement) {
    && mv.key == Key(warehouse, l.variant) && mv.movementType == l.movementType && mv.unit == l.unit
    && mv.quantity == ToColumn(l.quantity) && mv.unitCost == None && mv.reference == reference
  }

  lemma {:induction false} AdjustmentsPost(cat: Catalogue, t: Tables, warehouse: Uuid, lines: seq<AdjustmentLine>,
                                           reference: Reference)
    requires cat.Valid()
    ensures var r := RecordAdjustment(cat, t, warehouse, lines, reference);
      && (lines == [] ==> r == Err(EmptyAdjustment))
      && (r == Err(InvalidAdjustmentType) ==>
            exists l <- lines :: l.movementType !in {AdjustmentIn, AdjustmentOut, Damage, Expiry})
      && (r.Ok? ==>
            && lines != [] && (forall l <- lines :: l.movementType in {AdjustmentIn, AdjustmentOut, Damage, Expiry})
            && |r.value.movements| == |t.movements| + |lines| && t.movements <= r.value.movements
            && forall i | 0 <= i < |lines|
                :: IsEntryOf(warehouse, lines[i], reference, r.value.movements[|t.movements| + i]))
  {
    var ps := AdjustmentRequests(warehouse, lines, reference);
    hide RecordMovement, ToColumn;
    if RecordAll(cat, t, ps).Ok? { RequestsAppend(cat, t, ps); }
    if RecordAll(cat, t, ps).Err? { RecordAllError(cat, t, ps); }
  }

  // ---------- Transfers ----------

  /** A transfer appends two entries of what was entered, out of the one warehouse and into the other. */
  lemma {:induction false} TransferPosts(cat: Catalogue, t: Tables, p: TransferRequest, t': Tables)
    requires cat.Valid() && RecordTransfer(cat, t, p) == Ok(t')
    ensures p.from != p.to
    ensures var ms, n := t'.movements, |t.movements|;
      && |ms| == n + 2 && t.movements <= ms
      && (ms[n].key, ms[n].movementType) == (Key(p.from, p.variant), TransferOut)
      && (ms[n + 1].key, ms[n + 1].movementType) == (Key(p.to, p.variant), TransferIn)
      && forall i | n <= i < n + 2
          :: (ms[i].unit, ms[i].quantity, ms[i].unitCost, ms[i].reference)
             == (p.unit, ToColumn(p.quantity), None, p.reference)
  {
    hide RecordMovement, ToColumn;
    var legs := [OutLeg(p), InLeg(p)];
    RequestsAppend(cat, t, legs);
    var ms, n := t'.movements, |t.movements|;
    assert Asked(legs[0], ms[n + 0]) && Asked(legs[1], ms[n + 1]);
  }

  // ---------- Chains ----------

  lemma {:induction false} RecordAllError(cat: Catalogue, t: Tables, ps: seq<MovementRequest>)
    requires cat.Valid() && RecordAll(cat, t, ps).Err?
    ensures RecordAll(cat, t, ps) != Err(InvalidAdjustmentType) && RecordAll(cat, t, ps) != Err(EmptyAdjustment)
    decreases |ps|
  {
    var next := RecordMovement(cat, t, ps[0]);
    if next.Err? { ErrorsTell(cat, t, ps[0]); } else { RecordAllError(cat, next.value, ps[1..]); }
  }

  /** A chain of movements appends the requests in their order. */
  lemma {:induction false} RequestsAppend(cat: Catalogue, t: Tables, ps: seq<MovementRequest>)
    requires cat.Valid() && RecordAll(cat, t, ps).Ok?
    ensures var ms, n := RecordAll(cat, t, ps).value.movements, |t.movements|;
      && |ms| == n + |ps| && t.movements <= ms
      && forall i | 0 <= i < |ps| :: Asked(ps[i], ms[n + i])
    decreases |ps|
  {
    if ps != [] {
      var next := RecordMovement(cat, t, ps[0]).value;
      assert next.movements == t.movements + [Last(next.movements)] && Asked(ps[0], Last(next.movements));
      hide RecordMovement, Asked;
      RequestsAppend(cat, next, ps[1..]);
      var ms, n := RecordAll(cat, t, ps).value.movements, |t.movements|;
      forall i | 0 <= i < |ps| ensures Asked(ps[i], ms[n + i]) {
        if i > 0 { assert ps[1..][i - 1] == ps[i]; } else { assert ms[n] == next.movements[n]; }
      }
    }
  }

  predicate Asked(p: MovementRequest, mv: Movement) {
    && mv.key == p.key && mv.movementType == p.movementType && mv.unit == p.unit && mv.quantity == ToColumn(p.quantity)
    && mv.unitCost == (if p.unitCost.Some? then Some(ToColumn(p.unitCost.value)) else None)
        && mv.reference == p.reference
  }
}
