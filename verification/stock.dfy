/** internal/modules/inventory: the movement ledger, the balance rows that cache it,
  * weighted-average costing and reservations.
  *
  * The functions of this module say what each operation does to the tables; the class
  * Inventory carries the operations out on its fields and is proved to do the same.
  */
module Stock {
  import opened Wrappers
  import opened Decimals

  // ---------- Movement types ----------

  datatype MovementType =
    | Opening | PurchaseReceipt | PurchaseReturn | Sale | SaleReturn | TransferOut | TransferIn
    | AdjustmentIn | AdjustmentOut | AssemblyIn | AssemblyOut | Damage | Expiry
    | Unrecognised(name: string)

  datatype Direction = In | Out

  function DirectionOf(t: MovementType): Option<Direction> {
    match t
    case Opening | PurchaseReceipt | SaleReturn | TransferIn | AdjustmentIn | AssemblyIn => Some(In)
    case PurchaseReturn | Sale | TransferOut | AdjustmentOut | AssemblyOut | Damage | Expiry => Some(Out)
    case Unrecognised(_) => None
  }

  /** The movement types that establish a cost. */
  predicate IsReceipt(t: MovementType) {
    t.Opening? || t.PurchaseReceipt?
  }

  predicate IsAdjustment(t: MovementType) {
    t.AdjustmentIn? || t.AdjustmentOut? || t.Damage? || t.Expiry?
  }

  // ---------- Tables ----------

  datatype Key = Key(warehouse: Uuid, variant: Uuid)

  /** A stock_balances row. */
  datatype Balance = Balance(onHand: Column, reserved: Column, averageCost: Column)

  /** What the repository answers for a row that does not exist. */
  const NO_BALANCE := Balance(0, 0, 0)

  datatype Reference = Reference(kind: string, id: Option<Uuid>)

  /** A stock_movements row: magnitudes only, the type carries the sign. */
  datatype Movement = Movement(key: Key, movementType: MovementType, unit: Uuid, quantity: Column,
                               baseQuantity: Column, unitCost: Option<Column>, reference: Reference)

  datatype ReservationStatus = Active | Released | Consumed

  /** A stock_reservations row; its id is its position in the table. */
  datatype Reservation = Reservation(key: Key, quantity: Column, status: ReservationStatus)

  datatype Tables = Tables(balances: map<Key, Balance>, movements: seq<Movement>, reservations: seq<Reservation>)

  const EMPTY := Tables(map[], [], [])

  function BalanceOf(t: Tables, k: Key): Balance {
    if k in t.balances then t.balances[k] else NO_BALANCE
  }

  /** Reference data that no operation of this module changes: each variant's base unit, the
    * recorded unit conversions and the keys whose policy allows negative stock. */
  datatype Catalogue = Catalogue(baseUnit: map<Uuid, Uuid>, conversions: map<(Uuid, Uuid), Column>,
                                 allowNegative: set<Key>) {
    /** factor numeric(20,6) CHECK (factor > 0): at most fourteen digits before the point. */
    ghost predicate Valid() {
      forall c <- conversions :: 0 < conversions[c] < 100000000000000000000
    }
  }

  datatype StockError =
    | InvalidMovementType | QuantityNotPositive | UnitCostRequired | UnknownVariant | NoConversion
    | InsufficientStock | CheckViolation | NotFound | EmptyAdjustment | InvalidAdjustmentType | SameWarehouse

  // ---------- Units ----------

  /** UnitConversion.Invert: the factor of the reverse conversion. */
  function Invert(factor: real): real
    requires factor > 0.0
  {
    Div(1.0, factor)
  }

  /** An inverse vanishes at 16 places exactly for factors above 2 * 10^16, which no column holds. */
  lemma {:induction false} InverseIsPositive(factor: real)
    requires factor > 0.0
    ensures Invert(factor) > 0.0 <==> factor <= 20000000000000000.0
  {
    var inverse := 1.0 / factor;
    Quotient(1.0, factor);
    if factor <= 20000000000000000.0 {
      CancelPositive(0.00000000000000005, inverse, factor);
      HalfAwayMonotone(0.5, inverse * 10000000000000000.0);
    } else {
      CancelPositive(inverse, 0.00000000000000005, factor);
      assert inverse != 0.00000000000000005;
      assert inverse * 10000000000000000.0 < 0.5;
    }
  }

  /** How many `to` units make one `from` unit, from a conversion recorded in either direction. */
  function ConversionFactor(cat: Catalogue, from: Uuid, to: Uuid): (f: Option<real>)
    requires cat.Valid()
    ensures f.Some? ==> f.value > 0.0
  {
    if from == to then Some(1.0)
    else if (from, to) in cat.conversions then Some(FromColumn(cat.conversions[(from, to)]))
    else if (to, from) in cat.conversions then
      InverseIsPositive(FromColumn(cat.conversions[(to, from)]));
      Some(Invert(FromColumn(cat.conversions[(to, from)])))
    else None
  }

  // ---------- Costing ----------

  /** WeightedAverageCostingStrategy.OnReceipt. */
  function OnReceipt(currentQty: real, currentAvgCost: real, receiptQty: real, receiptUnitCost: real): real {
    var totalQty := currentQty + receiptQty;
    if totalQty == 0.0 then 0.0
    else Div(currentQty * currentAvgCost + receiptQty * receiptUnitCost, totalQty)
  }

  // ---------- One movement ----------

  /** Quantity and unit cost are in the transacted unit. */
  datatype MovementRequest = MovementRequest(key: Key, movementType: MovementType, unit: Uuid, quantity: real,
                                             unitCost: Option<real>, reference: Reference)

  /** The conversion factor to the base unit, or the error met before the row is locked. */
  function Resolve(cat: Catalogue, p: MovementRequest): (r: Result<real, StockError>)
    requires cat.Valid()
    ensures r.Ok? ==> r.value > 0.0 && DirectionOf(p.movementType).Some? && p.quantity > 0.0
                      && (IsReceipt(p.movementType) ==> p.unitCost.Some?)
  {
    if DirectionOf(p.movementType).None? then Err(InvalidMovementType)
    else if p.quantity <= 0.0 then Err(QuantityNotPositive)
    else if IsReceipt(p.movementType) && p.unitCost.None? then Err(UnitCostRequired)
    else if p.key.variant !in cat.baseUnit then Err(UnknownVariant)
    else match ConversionFactor(cat, p.unit, cat.baseUnit[p.key.variant])
         case None => Err(NoConversion)
         case Some(factor) => Ok(factor)
  }

  function BaseQuantity(p: MovementRequest, factor: real): real {
    p.quantity * factor
  }

  /** A receipt's cost per base unit. */
  function BaseUnitCost(p: MovementRequest, factor: real): real
    requires factor > 0.0 && p.unitCost.Some?
  {
    Div(p.unitCost.value, factor)
  }

  /** The in-memory StockBalance that a movement hands to Upsert. */
  datatype Row = Row(onHand: real, averageCost: real)

  function Load(b: Balance): Row {
    Row(FromColumn(b.onHand), FromColumn(b.averageCost))
  }

  function NewRow(cat: Catalogue, bal: Balance, p: MovementRequest, factor: real): Result<Row, StockError>
    requires cat.Valid() && Resolve(cat, p) == Ok(factor)
  {
    var row := Load(bal);
    var baseQty := BaseQuantity(p, factor);
    if DirectionOf(p.movementType) == Some(In) then
      var cost := if IsReceipt(p.movementType)
                  then OnReceipt(row.onHand, row.averageCost, baseQty, BaseUnitCost(p, factor))
                  else row.averageCost;
      Ok(Row(row.onHand + baseQty, cost))
    else if p.key !in cat.allowNegative && row.onHand - baseQty < 0.0 then Err(InsufficientStock)
    else Ok(Row(row.onHand - baseQty, row.averageCost))
  }

  function NewMovement(p: MovementRequest, factor: real): Movement {
    Movement(p.key, p.movementType, p.unit, ToColumn(p.quantity), ToColumn(BaseQuantity(p, factor)),
             if p.unitCost.Some? then Some(ToColumn(p.unitCost.value)) else None, p.reference)
  }

  datatype Posted = Posted(balance: Balance, movement: Movement)

  /** recordMovement on the locked row: the row to store and the ledger entry to append. */
  function PostOnRow(cat: Catalogue, bal: Balance, p: MovementRequest): Result<Posted, StockError>
    requires cat.Valid()
  {
    match Resolve(cat, p)
    case Err(e) => Err(e)
    case Ok(factor) =>
      match NewRow(cat, bal, p, factor)
      case Err(e) => Err(e)
      case Ok(row) =>
        var mv := NewMovement(p, factor);
        // CHECK (quantity > 0), CHECK (base_quantity > 0) on the stored values
        if mv.quantity <= 0 || mv.baseQuantity <= 0 then Err(CheckViolation)
        else Ok(Posted(Balance(ToColumn(row.onHand), bal.reserved, ToColumn(row.averageCost)), mv))
  }

  function RecordMovement(cat: Catalogue, t: Tables, p: MovementRequest): Result<Tables, StockError>
    requires cat.Valid()
  {
    match PostOnRow(cat, BalanceOf(t, p.key), p)
    case Err(e) => Err(e)
    case Ok(posted) =>
      Ok(t.(balances := t.balances[p.key := posted.balance], movements := t.movements + [posted.movement]))
  }

  /** Several movements in one transaction: the first failure discards them all. */
  function RecordAll(cat: Catalogue, t: Tables, ps: seq<MovementRequest>): Result<Tables, StockError>
    requires cat.Valid()
    decreases |ps|
  {
    if ps == [] then Ok(t)
    else match RecordMovement(cat, t, ps[0])
         case Err(e) => Err(e)
         case Ok(next) => RecordAll(cat, next, ps[1..])
  }

  // ---------- Adjustments and transfers ----------

  datatype AdjustmentLine = AdjustmentLine(variant: Uuid, unit: Uuid, quantity: real, movementType: MovementType)

  function AdjustmentRequests(warehouse: Uuid, lines: seq<AdjustmentLine>,
                              reference: Reference): (ps: seq<MovementRequest>)
    ensures |ps| == |lines|
    ensures forall i | 0 <= i < |ps| :: ps[i] == AdjustmentRequest(warehouse, lines[i], reference)
  {
    seq(|lines|, i requires 0 <= i < |lines| => AdjustmentRequest(warehouse, lines[i], reference))
  }

  function AdjustmentRequest(warehouse: Uuid, line: AdjustmentLine, reference: Reference): MovementRequest {
    MovementRequest(Key(warehouse, line.variant), line.movementType, line.unit, line.quantity, None, reference)
  }

  function RecordAdjustment(cat: Catalogue, t: Tables, warehouse: Uuid, lines: seq<AdjustmentLine>,
                            reference: Reference)
    : Result<Tables, StockError>
    requires cat.Valid()
  {
    if lines == [] then Err(EmptyAdjustment)
    else if exists l <- lines :: !IsAdjustment(l.movementType) then Err(InvalidAdjustmentType)
    else RecordAll(cat, t, AdjustmentRequests(warehouse, lines, reference))
  }

  datatype TransferRequest = TransferRequest(from: Uuid, to: Uuid, variant: Uuid, unit: Uuid, quantity: real,
                                             reference: Reference)

  function OutLeg(p: TransferRequest): MovementRequest {
    MovementRequest(Key(p.from, p.variant), TransferOut, p.unit, p.quantity, None, p.reference)
  }

  function InLeg(p: TransferRequest): MovementRequest {
    MovementRequest(Key(p.to, p.variant), TransferIn, p.unit, p.quantity, None, p.reference)
  }

  function RecordTransfer(cat: Catalogue, t: Tables, p: TransferRequest): Result<Tables, StockError>
    requires cat.Valid()
  {
    if p.from == p.to then Err(SameWarehouse) else RecordAll(cat, t, [OutLeg(p), InLeg(p)])
  }

  // ---------- Reservations ----------

  /** StockReservationRepo.SumActive. */
  function SumActive(rs: seq<Reservation>, k: Key): Column {
    if rs == [] then 0
    else SumActive(rs[..|rs| - 1], k) + (if Last(rs).key == k && Last(rs).status.Active? then Last(rs).quantity else 0)
  }

  function Last<T>(s: seq<T>): T
    requires s != []
  {
    s[|s| - 1]
  }

  function Available(b: Balance): Column {
    b.onHand - b.reserved
  }

  function WithReserved(t: Tables, k: Key, rs: seq<Reservation>): Tables {
    t.(reservations := rs, balances := t.balances[k := BalanceOf(t, k).(reserved := SumActive(rs, k))])
  }

  function Reserve(t: Tables, k: Key, quantity: real): Result<Tables, StockError> {
    if quantity <= 0.0 then Err(QuantityNotPositive)
    else if FromColumn(Available(BalanceOf(t, k))) < quantity then Err(InsufficientStock)
    else if ToColumn(quantity) <= 0 then Err(CheckViolation)
    else Ok(WithReserved(t, k, t.reservations + [Reservation(k, ToColumn(quantity), Active)]))
  }

  /** The caller names the key as well as the reservation. */
  function ReleaseReservation(t: Tables, id: int, k: Key): Result<Tables, StockError> {
    if !(0 <= id < |t.reservations| && t.reservations[id].status.Active?) then Err(NotFound)
    else Ok(WithReserved(t, k, t.reservations[id := t.reservations[id].(status := Released)]))
  }

  // ---------- The service ----------

  class Inventory {
    const cat: Catalogue
    var balances: map<Key, Balance>
    var movements: seq<Movement>
    var reservations: seq<Reservation>

    constructor (cat: Catalogue)
      ensures this.cat == cat && Contents() == EMPTY
    {
      this.cat := cat;
      balances, movements, reservations := map[], [], [];
    }

    function Contents(): Tables
      reads this
    {
      Tables(balances, movements, reservations)
    }

    /** Rolling a transaction back. */
    method Restore(saved: Tables)
      modifies this
      ensures Contents() == saved
    {
      balances, movements, reservations := saved.balances, saved.movements, saved.reservations;
    }

    /** recordMovement, inside the caller's transaction. */
    method Record(p: MovementRequest) returns (r: Result<Movement, StockError>)
      requires cat.Valid()
      modifies this
      ensures match RecordMovement(cat, old(Contents()), p)
              case Ok(t) => r.Ok? && Contents() == t && movements == old(movements) + [r.value]
              case Err(e) => r == Err(e) && Contents() == old(Contents())
    {
      var direction := DirectionOf(p.movementType);
      if direction.None? { return Err(InvalidMovementType); }
      if p.quantity <= 0.0 { return Err(QuantityNotPositive); }
      if IsReceipt(p.movementType) && p.unitCost.None? { return Err(UnitCostRequired); }
      if p.key.variant !in cat.baseUnit { return Err(UnknownVariant); }
      var factor := 1.0;
      if p.unit != cat.baseUnit[p.key.variant] {
        var f := ConversionFactor(cat, p.unit, cat.baseUnit[p.key.variant]);
        if f.None? { return Err(NoConversion); }
        factor := f.value;
      }
      assert Resolve(cat, p) == Ok(factor);
      var baseQty := BaseQuantity(p, factor);

      var row := if p.key in balances then balances[p.key] else NO_BALANCE;
      var newQty := FromColumn(row.onHand);
      var newAvgCost := FromColumn(row.averageCost);
      if direction == Some(In) {
        if IsReceipt(p.movementType) {
          var baseUnitCost := BaseUnitCost(p, factor);
          newAvgCost := OnReceipt(newQty, newAvgCost, baseQty, baseUnitCost);
        }
        newQty := newQty + baseQty;
      } else {
        var resultingQty := newQty - baseQty;
        if p.key !in cat.allowNegative && resultingQty < 0.0 { return Err(InsufficientStock); }
        newQty := resultingQty;
      }

      assert NewRow(cat, row, p, factor) == Ok(Row(newQty, newAvgCost));

      var mv := NewMovement(p, factor);
      if mv.quantity <= 0 || mv.baseQuantity <= 0 { return Err(CheckViolation); }
      movements := movements + [mv];
      balances := balances[p.key := Balance(ToColumn(newQty), row.reserved, ToColumn(newAvgCost))];
      return Ok(mv);
    }

    /** Posts the requests in order and stops at the first failure, leaving the rest to the caller. */
    method RecordEach(ps: seq<MovementRequest>) returns (r: Result<(), StockError>)
      requires cat.Valid()
      modifies this
      ensures match RecordAll(cat, old(Contents()), ps)
              case Ok(t) => r == Ok(()) && Contents() == t
              case Err(e) => r == Err(e)
    {
      for i := 0 to |ps|
        invariant RecordAll(cat, Contents(), ps[i..]) == RecordAll(cat, old(Contents()), ps)
      {
        var posted := Record(ps[i]);
        assert ps[i..][1..] == ps[i + 1..];
        if posted.Err? { return Err(posted.error); }
      }
      return Ok(());
    }

    method OpeningStock(p: MovementRequest) returns (r: Result<Movement, StockError>)
      requires cat.Valid()
      modifies this
      ensures match RecordMovement(cat, old(Contents()), p.(movementType := Opening))
              case Ok(t) => r.Ok? && Contents() == t
              case Err(e) => r == Err(e) && Contents() == old(Contents())
    {
      r := Record(p.(movementType := Opening));
    }

    method Adjust(warehouse: Uuid, lines: seq<AdjustmentLine>, reference: Reference) returns (r: Result<(), StockError>)
      requires cat.Valid()
      modifies this
      ensures match RecordAdjustment(cat, old(Contents()), warehouse, lines, reference)
              case Ok(t) => r == Ok(()) && Contents() == t
              case Err(e) => r == Err(e) && Contents() == old(Contents())
    {
      if lines == [] { return Err(EmptyAdjustment); }
      for i := 0 to |lines|
        invariant forall j | 0 <= j < i :: IsAdjustment(lines[j].movementType)
      {
        if !IsAdjustment(lines[i].movementType) { return Err(InvalidAdjustmentType); }
      }
      var saved := Contents();
      r := RecordEach(AdjustmentRequests(warehouse, lines, reference));
      if r.Err? { Restore(saved); }
    }

    method Transfer(p: TransferRequest) returns (r: Result<(), StockError>)
      requires cat.Valid()
      modifies this
      ensures match RecordTransfer(cat, old(Contents()), p)
              case Ok(t) => r == Ok(()) && Contents() == t
              case Err(e) => r == Err(e) && Contents() == old(Contents())
    {
      if p.from == p.to { return Err(SameWarehouse); }
      var saved := Contents();
      r := RecordEach([OutLeg(p), InLeg(p)]);
      if r.Err? { Restore(saved); }
    }

    method ReserveStock(k: Key, quantity: real) returns (r: Result<int, StockError>)
      modifies this
      ensures match Reserve(old(Contents()), k, quantity)
              case Ok(t) => r == Ok(|old(reservations)|) && Contents() == t
              case Err(e) => r == Err(e) && Contents() == old(Contents())
    {
      if quantity <= 0.0 { return Err(QuantityNotPositive); }
      var bal := if k in balances then balances[k] else NO_BALANCE;
      if FromColumn(Available(bal)) < quantity { return Err(InsufficientStock); }
      if ToColumn(quantity) <= 0 { return Err(CheckViolation); }
      r := Ok(|reservations|);
      reservations := reservations + [Reservation(k, ToColumn(quantity), Active)];
      balances := balances[k := bal.(reserved := SumActive(reservations, k))];
    }

    method Release(id: int, k: Key) returns (r: Result<(), StockError>)
      modifies this
      ensures match ReleaseReservation(old(Contents()), id, k)
              case Ok(t) => r == Ok(()) && Contents() == t
              case Err(e) => r == Err(e) && Contents() == old(Contents())
    {
      if !(0 <= id < |reservations| && reservations[id].status.Active?) { return Err(NotFound); }
      reservations := reservations[id := reservations[id].(status := Released)];
      var bal := if k in balances then balances[k] else NO_BALANCE;
      balances := balances[k := bal.(reserved := SumActive(reservations, k))];
      r := Ok(());
    }
  }
}
