/** What every serial run of stock operations keeps. */
module StockRuns {
  import opened Wrappers
  import opened Decimals
  import opened Stock
  import opened StockLaws

  /** One transaction of the inventory service. */
  datatype Op =
    | Move(p: MovementRequest)
    | Adjust(warehouse: Uuid, lines: seq<AdjustmentLine>, reference: Reference)
    | Transfer(t: TransferRequest)
    | ReserveStock(k: Key, quantity: real)
    | Release(id: int, k: Key)

  function Apply(cat: Catalogue, t: Tables, op: Op): Result<Tables, StockError>
    requires cat.Valid()
  {
    match op
    case Move(p) => RecordMovement(cat, t, p)
    case Adjust(warehouse, lines, reference) => RecordAdjustment(cat, t, warehouse, lines, reference)
    case Transfer(p) => RecordTransfer(cat, t, p)
    case ReserveStock(k, quantity) => Reserve(t, k, quantity)
    case Release(id, k) => ReleaseReservation(t, id, k)
  }

  /** A failed transaction is rolled back. */
  function Next(cat: Catalogue, t: Tables, op: Op): Tables
    requires cat.Valid()
  {
    match Apply(cat, t, op) case Ok(t') => t' case Err(_) => t
  }

  function Run(cat: Catalogue, t: Tables, ops: seq<Op>): Tables
    requires cat.Valid()
    decreases |ops|
  {
    if ops == [] then t else Run(cat, Next(cat, t, ops[0]), ops[1..])
  }

  /** The movements an operation asks for. */
  function Requests(op: Op): seq<MovementRequest> {
    match op
    case Move(p) => [p]
    case Adjust(warehouse, lines, reference) => AdjustmentRequests(warehouse, lines, reference)
    case Transfer(p) => [OutLeg(p), InLeg(p)]
    case ReserveStock(_, _) => []
    case Release(_, _) => []
  }

  // ---------- Runs as chains of single steps ----------

  /** What a committed transaction did, one write at a time. */
  datatype Write = Booked(p: MovementRequest) | Reserved(k: Key, quantity: real) | Freed(id: int, k: Key)

  function Bookings(ps: seq<MovementRequest>): (ws: seq<Write>)
    ensures |ws| == |ps| && forall i | 0 <= i < |ws| :: ws[i] == Booked(ps[i])
  {
    seq(|ps|, i requires 0 <= i < |ps| => Booked(ps[i]))
  }

  function Perform(cat: Catalogue, t: Tables, w: Write): Result<Tables, StockError>
    requires cat.Valid()
  {
    match w
    case Booked(p) => RecordMovement(cat, t, p)
    case Reserved(k, quantity) => Reserve(t, k, quantity)
    case Freed(id, k) => ReleaseReservation(t, id, k)
  }

  ghost predicate Leads(cat: Catalogue, t: Tables, ws: seq<Write>, t': Tables)
    requires cat.Valid()
    decreases |ws|
  {
    if ws == [] then t == t'
    else Perform(cat, t, ws[0]).Ok? && Leads(cat, Perform(cat, t, ws[0]).value, ws[1..], t')
  }

  lemma {:induction false} LeadsTrans(cat: Catalogue, t: Tables, ws: seq<Write>, t1: Tables, vs: seq<Write>, t2: Tables)
    requires cat.Valid() && Leads(cat, t, ws, t1) && Leads(cat, t1, vs, t2)
    ensures Leads(cat, t, ws + vs, t2)
    decreases |ws|
  {
    hide Perform;
    if ws == [] {
      assert ws + vs == vs;
    } else {
      LeadsTrans(cat, Perform(cat, t, ws[0]).value, ws[1..], t1, vs, t2);
      LeadsCons(cat, t, ws[0], ws[1..] + vs, t2);
      assert [ws[0]] + (ws[1..] + vs) == ws + vs;
    }
  }

  lemma {:induction false} LeadsCons(cat: Catalogue, t: Tables, w: Write, ws: seq<Write>, t': Tables)
    requires cat.Valid() && Perform(cat, t, w).Ok? && Leads(cat, Perform(cat, t, w).value, ws, t')
    ensures Leads(cat, t, [w] + ws, t')
  {
    assert ([w] + ws)[1..] == ws;
  }

  lemma {:induction false} RecordAllLeads(cat: Catalogue, t: Tables, ps: seq<MovementRequest>)
    requires cat.Valid() && RecordAll(cat, t, ps).Ok?
    ensures Leads(cat, t, Bookings(ps), RecordAll(cat, t, ps).value)
    decreases |ps|
  {
    var ws := Bookings(ps);
    if ps != [] {
      var rest := ps[1..];
      assert ws[1..] == Bookings(rest);
      RecordAllLeads(cat, RecordMovement(cat, t, ps[0]).value, rest);
    }
  }

  /** The writes of an operation, none if it fails. */
  function WritesOf(cat: Catalogue, t: Tables, op: Op): seq<Write>
    requires cat.Valid()
  {
    if Apply(cat, t, op).Err? then []
    else match op
         case ReserveStock(k, quantity) => [Reserved(k, quantity)]
         case Release(id, k) => [Freed(id, k)]
         case _ => Bookings(Requests(op))
  }

  function WritesOfRun(cat: Catalogue, t: Tables, ops: seq<Op>): seq<Write>
    requires cat.Valid()
    decreases |ops|
  {
    if ops == [] then [] else WritesOf(cat, t, ops[0]) + WritesOfRun(cat, Next(cat, t, ops[0]), ops[1..])
  }

  lemma {:induction false} ApplyLeads(cat: Catalogue, t: Tables, op: Op)
    requires cat.Valid()
    ensures Leads(cat, t, WritesOf(cat, t, op), Next(cat, t, op))
    ensures forall w <- WritesOf(cat, t, op) | w.Booked? :: w.p in Requests(op)
  {
    if Apply(cat, t, op).Ok? {
      match op
      case Move(p) =>
        assert Bookings([p]) == [Booked(p)];
        assert [Booked(p)][1..] == [];
      case Adjust(warehouse, lines, reference) => RecordAllLeads(cat, t,
                                                                 AdjustmentRequests(warehouse, lines, reference));
      case Transfer(p) => RecordAllLeads(cat, t, [OutLeg(p), InLeg(p)]);
      case ReserveStock(k, quantity) => assert [Reserved(k, quantity)][1..] == [];
      case Release(id, k) => assert [Freed(id, k)][1..] == [];
    }
  }

  /** Every run is a chain of successful writes, each asked for by one of its operations. */
  lemma {:induction false} RunLeads(cat: Catalogue, t: Tables, ops: seq<Op>)
    requires cat.Valid()
    ensures Leads(cat, t, WritesOfRun(cat, t, ops), Run(cat, t, ops))
    ensures forall w <- WritesOfRun(cat, t, ops) | w.Booked? :: exists op <- ops :: w.p in Requests(op)
    decreases |ops|
  {
    if ops != [] {
      var next := Next(cat, t, ops[0]);
      ApplyLeads(cat, t, ops[0]);
      RunLeads(cat, next, ops[1..]);
      LeadsTrans(cat, t, WritesOf(cat, t, ops[0]), next, WritesOfRun(cat, next, ops[1..]), Run(cat, t, ops));
    }
  }

  // ---------- On-hand quantities ----------

  /** Where the policy forbids it, stock is not negative. */
  ghost predicate NeverNegative(cat: Catalogue, t: Tables) {
    forall k | k !in cat.allowNegative :: BalanceOf(t, k).onHand >= 0
  }

  lemma {:induction false} PostedQuantity(cat: Catalogue, t: Tables, p: MovementRequest, t': Tables)
    requires cat.Valid() && RecordMovement(cat, t, p) == Ok(t')
    ensures forall k | k != p.key :: BalanceOf(t', k) == BalanceOf(t, k)
    ensures BalanceOf(t', p.key).reserved == BalanceOf(t, p.key).reserved
    ensures DirectionOf(p.movementType) == Some(In) ==> BalanceOf(t', p.key).onHand >= BalanceOf(t, p.key).onHand
    ensures DirectionOf(p.movementType) != Some(In) ==> BalanceOf(t', p.key).onHand <= BalanceOf(t, p.key).onHand
    ensures DirectionOf(p.movementType) != Some(In) && p.key !in cat.allowNegative ==> BalanceOf(t', p.key).onHand >= 0
    ensures t'.reservations == t.reservations
    ensures |t'.movements| == |t.movements| + 1 && t'.movements[..|t.movements|] == t.movements
    ensures Last(t'.movements).key == p.key && Last(t'.movements).movementType == p.movementType
  {
    var bal, factor := BalanceOf(t, p.key), Resolve(cat, p).value;
    assert BaseQuantity(p, factor) > 0.0;
    var row := NewRow(cat, bal, p, factor).value;
    ColumnRoundTrip(bal.onHand);
    if DirectionOf(p.movementType) == Some(In) {
      ToColumnMonotone(FromColumn(bal.onHand), row.onHand);
    } else {
      ToColumnMonotone(row.onHand, FromColumn(bal.onHand));
      if p.key !in cat.allowNegative {
        ColumnRoundTrip(0);
        ToColumnMonotone(0.0, row.onHand);
      }
    }
  }

  lemma {:induction false} WritesNeverNegative(cat: Catalogue, t: Tables, ws: seq<Write>, t': Tables)
    requires cat.Valid() && Leads(cat, t, ws, t') && NeverNegative(cat, t)
    ensures NeverNegative(cat, t')
    decreases |ws|
  {
    if ws != [] {
      var next := Perform(cat, t, ws[0]).value;
      if ws[0].Booked? { PostedQuantity(cat, t, ws[0].p, next); }
      WritesNeverNegative(cat, next, ws[1..], t');
    }
  }

  /** Over every run, stock is never negative where the policy forbids it. */
  lemma {:induction false} StockNeverNegative(cat: Catalogue, ops: seq<Op>)
    requires cat.Valid()
    ensures NeverNegative(cat, Run(cat, EMPTY, ops))
  {
    RunLeads(cat, EMPTY, ops);
    WritesNeverNegative(cat, EMPTY, WritesOfRun(cat, EMPTY, ops), Run(cat, EMPTY, ops));
  }

  // ---------- The cache and the ledger ----------

  ghost predicate CacheAgrees(t: Tables) {
    forall k :: Drift(t, k) == 0
  }

  /** The request's base quantity is not half-way between two storable ones. */
  predicate Untied(cat: Catalogue, p: MovementRequest)
    requires cat.Valid()
  {
    Resolve(cat, p).Ok? ==> !TiedQuantity(p, Resolve(cat, p).value)
  }

  lemma {:induction false} WritesKeepCache(cat: Catalogue, t: Tables, ws: seq<Write>, t': Tables)
    requires cat.Valid() && Leads(cat, t, ws, t') && CacheAgrees(t)
    requires forall w <- ws | w.Booked? :: Untied(cat, w.p)
    ensures CacheAgrees(t')
    decreases |ws|
  {
    if ws != [] {
      var next := Perform(cat, t, ws[0]).value;
      if ws[0].Booked? {
        MovementDrift(cat, t, ws[0].p, next);
      } else {
        forall k ensures Drift(next, k) == Drift(t, k) {}
      }
      assert forall k :: Drift(next, k) == Drift(t, k) == 0;
      WritesKeepCache(cat, next, ws[1..], t');
    }
  }

  /** Over every run of untied movements, each on-hand quantity is the signed sum of the
    * ledger's base quantities. */
  lemma {:induction false} CacheFollowsLedger(cat: Catalogue, ops: seq<Op>)
    requires cat.Valid() && forall op <- ops :: forall p <- Requests(op) :: Untied(cat, p)
    ensures CacheAgrees(Run(cat, EMPTY, ops))
  {
    RunLeads(cat, EMPTY, ops);
    WritesKeepCache(cat, EMPTY, WritesOfRun(cat, EMPTY, ops), Run(cat, EMPTY, ops));
  }

  // ---------- Average cost ----------

  predicate HasReceipt(ms: seq<Movement>, k: Key) {
    exists mv <- ms :: mv.key == k && IsReceipt(mv.movementType)
  }

  /** No movement into k comes before the first receipt of k. */
  predicate FirstInboundIsReceipt(ms: seq<Movement>, k: Key) {
    forall i | 0 <= i < |ms| && ms[i].key == k && DirectionOf(ms[i].movementType) == Some(In)
        :: HasReceipt(ms[..i + 1], k)
  }

  /** The receipt's cost per base unit lies between lo and hi. */
  predicate CostBetween(cat: Catalogue, p: MovementRequest, lo: real, hi: real)
    requires cat.Valid()
  {
    IsReceipt(p.movementType) && Resolve(cat, p).Ok? ==> lo <= BaseUnitCost(p, Resolve(cat, p).value) <= hi
  }

  /** Once k has had a receipt its average is in range; before, nothing has come in. */
  ghost predicate Costed(t: Tables, k: Key, lo: Column, hi: Column) {
    var bal := BalanceOf(t, k);
    if HasReceipt(t.movements, k) then lo <= bal.averageCost <= hi else bal.onHand <= 0
  }

  lemma {:induction false} MovementKeepsCost(cat: Catalogue, t: Tables, p: MovementRequest, t': Tables, k: Key,
                                             lo: real, hi: real)
    requires cat.Valid() && RecordMovement(cat, t, p) == Ok(t')
    requires Round16(lo) == lo && Round16(hi) == hi && Costed(t, k, ToColumn(lo), ToColumn(hi))
    requires p.key == k && IsReceipt(p.movementType) ==> BalanceOf(t, k).onHand >= 0 && CostBetween(cat, p, lo, hi)
    requires FirstInboundIsReceipt(t'.movements, k)
    ensures Costed(t', k, ToColumn(lo), ToColumn(hi))
  {
    PostedQuantity(cat, t, p, t');
    if p.key == k {
      if IsReceipt(p.movementType) {
        ReceiptKeepsCost(cat, t, p, t', lo, hi);
      } else {
        CostlessMovement(cat, t, p, t');
      }
    }
    CostedStep(t, t', k, ToColumn(lo), ToColumn(hi));
  }

  /** The part of the argument that only looks at the two states. */
  lemma {:induction false} CostedStep(t: Tables, t': Tables, k: Key, lo: Column, hi: Column)
    requires Costed(t, k, lo, hi) && FirstInboundIsReceipt(t'.movements, k)
    requires |t'.movements| == |t.movements| + 1 && t.movements <= t'.movements
    requires Last(t'.movements).key != k ==> BalanceOf(t', k) == BalanceOf(t, k)
    requires Last(t'.movements).key == k ==>
               var bal, bal', kind := BalanceOf(t, k), BalanceOf(t', k), Last(t'.movements).movementType;
               && (IsReceipt(kind) ==> lo <= bal'.averageCost <= hi)
               && (!IsReceipt(kind) ==> bal'.averageCost == bal.averageCost)
               && (DirectionOf(kind) != Some(In) ==> bal'.onHand <= bal.onHand)
    ensures Costed(t', k, lo, hi)
  {
    hide HasReceipt, FirstInboundIsReceipt;
    var mv := Last(t'.movements);
    assert t'.movements == t.movements + [mv];
    HasReceiptAppend(t.movements, mv, k);
    InboundHasReceipt(t'.movements, k);
  }

  lemma {:induction false} InboundHasReceipt(ms: seq<Movement>, k: Key)
    requires ms != [] && FirstInboundIsReceipt(ms, k)
    ensures Last(ms).key == k && DirectionOf(Last(ms).movementType) == Some(In) ==> HasReceipt(ms, k)
  {
    var n := |ms| - 1;
    assert ms[..n + 1] == ms;
  }

  lemma {:induction false} HasReceiptAppend(ms: seq<Movement>, mv: Movement, k: Key)
    ensures HasReceipt(ms + [mv], k) <==> HasReceipt(ms, k) || (mv.key == k && IsReceipt(mv.movementType))
  {
    var all := ms + [mv];
    assert mv in all && forall x <- ms :: x in all;
    assert forall x <- all :: x in ms || x == mv;
  }

  lemma {:induction false} ReceiptKeepsCost(cat: Catalogue, t: Tables, p: MovementRequest, t': Tables, lo: real,
                                            hi: real)
    requires cat.Valid() && RecordMovement(cat, t, p) == Ok(t') && IsReceipt(p.movementType)
    requires Round16(lo) == lo && Round16(hi) == hi && Costed(t, p.key, ToColumn(lo), ToColumn(hi))
             && CostBetween(cat, p, lo, hi)
    requires BalanceOf(t, p.key).onHand >= 0
    ensures ToColumn(lo) <= BalanceOf(t', p.key).averageCost <= ToColumn(hi)
  {
    var bal, factor := BalanceOf(t, p.key), Resolve(cat, p).value;
    ReceiptKeepsAverageBetween(cat, bal, p, factor, NewRow(cat, bal, p, factor).value, lo, hi);
  }

  lemma {:induction false} WritesAppend(cat: Catalogue, t: Tables, ws: seq<Write>, t': Tables)
    requires cat.Valid() && Leads(cat, t, ws, t')
    ensures t.movements <= t'.movements
    decreases |ws|
  {
    if ws != [] {
      var next := Perform(cat, t, ws[0]).value;
      if ws[0].Booked? { PostedQuantity(cat, t, ws[0].p, next); }
      WritesAppend(cat, next, ws[1..], t');
    }
  }

  lemma {:induction false} FirstInboundPrefix(ms: seq<Movement>, longer: seq<Movement>, k: Key)
    requires ms <= longer && FirstInboundIsReceipt(longer, k)
    ensures FirstInboundIsReceipt(ms, k)
  {
    forall i | 0 <= i < |ms| && ms[i].key == k && DirectionOf(ms[i].movementType) == Some(In)
      ensures HasReceipt(ms[..i + 1], k)
    {
      assert ms[..i + 1] == longer[..i + 1];
    }
  }

  lemma {:induction false} WritesKeepCost(cat: Catalogue, t: Tables, ws: seq<Write>, t': Tables, k: Key, lo: real,
                                          hi: real)
    requires cat.Valid() && Leads(cat, t, ws, t') && forall w <- ws :: w.Booked? && !IsReceipt(w.p.movementType)
    requires Round16(lo) == lo && Round16(hi) == hi && Costed(t, k, ToColumn(lo), ToColumn(hi))
    requires FirstInboundIsReceipt(t'.movements, k)
    ensures Costed(t', k, ToColumn(lo), ToColumn(hi))
    decreases |ws|
  {
    if ws != [] {
      var next := Perform(cat, t, ws[0]).value;
      WritesAppend(cat, next, ws[1..], t');
      FirstInboundPrefix(next.movements, t'.movements, k);
      MovementKeepsCost(cat, t, ws[0].p, next, k, lo, hi);
      WritesKeepCost(cat, next, ws[1..], t', k, lo, hi);
    }
  }

  /** The only operation that posts receipts posts one. */
  predicate Receives(op: Op, k: Key) {
    op.Move? && op.p.key == k && IsReceipt(op.p.movementType)
  }

  lemma {:induction false} OpKeepsCost(cat: Catalogue, t: Tables, op: Op, k: Key, lo: real, hi: real)
    requires cat.Valid() && Round16(lo) == lo && Round16(hi) == hi && Costed(t, k, ToColumn(lo), ToColumn(hi))
    requires Receives(op, k) ==> BalanceOf(t, k).onHand >= 0 && CostBetween(cat, op.p, lo, hi)
    requires FirstInboundIsReceipt(Next(cat, t, op).movements, k)
    ensures Costed(Next(cat, t, op), k, ToColumn(lo), ToColumn(hi))
  {
    hide FirstInboundIsReceipt, RecordMovement, ToColumn, Round16;
    if Apply(cat, t, op).Ok? {
      if op.Move? {
        MovementKeepsCost(cat, t, op.p, Next(cat, t, op), k, lo, hi);
      } else if op.Adjust? || op.Transfer? {
        BatchKeepsCost(cat, t, Requests(op), k, lo, hi);
      }
    }
  }

  lemma {:induction false} BatchKeepsCost(cat: Catalogue, t: Tables, ps: seq<MovementRequest>, k: Key, lo: real,
                                          hi: real)
    requires cat.Valid() && RecordAll(cat, t, ps).Ok? && forall p <- ps :: !IsReceipt(p.movementType)
    requires Round16(lo) == lo && Round16(hi) == hi && Costed(t, k, ToColumn(lo), ToColumn(hi))
    requires FirstInboundIsReceipt(RecordAll(cat, t, ps).value.movements, k)
    ensures Costed(RecordAll(cat, t, ps).value, k, ToColumn(lo), ToColumn(hi))
  {
    RecordAllLeads(cat, t, ps);
    WritesKeepCost(cat, t, Bookings(ps), RecordAll(cat, t, ps).value, k, lo, hi);
  }

  lemma {:induction false} RunAppends(cat: Catalogue, t: Tables, ops: seq<Op>)
    requires cat.Valid()
    ensures t.movements <= Run(cat, t, ops).movements
  {
    RunLeads(cat, t, ops);
    WritesAppend(cat, t, WritesOfRun(cat, t, ops), Run(cat, t, ops));
  }

  /** No receipt of k arrives while its stock is negative. */
  predicate ReceiptsFindStock(cat: Catalogue, t: Tables, ops: seq<Op>, k: Key)
    requires cat.Valid()
    decreases |ops|
  {
    ops == [] || (
      && (Receives(ops[0], k) ==> BalanceOf(t, k).onHand >= 0)
      && ReceiptsFindStock(cat, Next(cat, t, ops[0]), ops[1..], k))
  }

  /** So it is wherever the policy forbids negative stock. */
  lemma {:induction false} PolicyKeepsReceiptsSafe(cat: Catalogue, t: Tables, ops: seq<Op>, k: Key)
    requires cat.Valid() && NeverNegative(cat, t) && k !in cat.allowNegative
    ensures ReceiptsFindStock(cat, t, ops, k)
    decreases |ops|
  {
    if ops != [] {
      ApplyLeads(cat, t, ops[0]);
      WritesNeverNegative(cat, t, WritesOf(cat, t, ops[0]), Next(cat, t, ops[0]));
      PolicyKeepsReceiptsSafe(cat, Next(cat, t, ops[0]), ops[1..], k);
    }
  }

  lemma {:induction false} RunKeepsCost(cat: Catalogue, t: Tables, ops: seq<Op>, k: Key, lo: real, hi: real)
    requires cat.Valid() && Round16(lo) == lo && Round16(hi) == hi && Costed(t, k, ToColumn(lo), ToColumn(hi))
    requires ReceiptsFindStock(cat, t, ops, k) && forall op <- ops | Receives(op, k) :: CostBetween(cat, op.p, lo, hi)
    requires FirstInboundIsReceipt(Run(cat, t, ops).movements, k)
    ensures Costed(Run(cat, t, ops), k, ToColumn(lo), ToColumn(hi))
    decreases |ops|
  {
    if ops != [] {
      var next := Next(cat, t, ops[0]);
      RunAppends(cat, next, ops[1..]);
      FirstInboundPrefix(next.movements, Run(cat, t, ops).movements, k);
      OpKeepsCost(cat, t, ops[0], k, lo, hi);
      RunKeepsCost(cat, next, ops[1..], k, lo, hi);
    }
  }

  /** Over every run in which no receipt of k arrives on negative stock and k is first filled by a
    * receipt, the stored average lies between the stored smallest and largest base-unit receipt cost,
    * whatever the 16-place divisions and the column rounded away.  lo and hi stand for those two costs:
    * being quotients themselves, they have 16 places. */
  lemma {:induction false} AverageCostBetween(cat: Catalogue, ops: seq<Op>, k: Key, lo: real, hi: real)
    requires cat.Valid() && Round16(lo) == lo && Round16(hi) == hi && ReceiptsFindStock(cat, EMPTY, ops, k)
    requires forall op <- ops | Receives(op, k) :: CostBetween(cat, op.p, lo, hi)
    requires FirstInboundIsReceipt(Run(cat, EMPTY, ops).movements, k)
    requires HasReceipt(Run(cat, EMPTY, ops).movements, k)
    ensures ToColumn(lo) <= BalanceOf(Run(cat, EMPTY, ops), k).averageCost <= ToColumn(hi)
  {
    RunKeepsCost(cat, EMPTY, ops, k, lo, hi);
  }

  /** If both extreme costs fit the column, the average is between the costs themselves. */
  lemma {:induction false} AverageBetweenStorableCosts(cat: Catalogue, ops: seq<Op>, k: Key, lo: Column, hi: Column)
    requires cat.Valid() && ReceiptsFindStock(cat, EMPTY, ops, k)
    requires forall op <- ops | Receives(op, k) :: CostBetween(cat, op.p, FromColumn(lo), FromColumn(hi))
    requires FirstInboundIsReceipt(Run(cat, EMPTY, ops).movements, k)
    requires HasReceipt(Run(cat, EMPTY, ops).movements, k)
    ensures lo <= BalanceOf(Run(cat, EMPTY, ops), k).averageCost <= hi
  {
    Round16OfColumn(lo);
    Round16OfColumn(hi);
    ColumnRoundTrip(lo);
    ColumnRoundTrip(hi);
    AverageCostBetween(cat, ops, k, FromColumn(lo), FromColumn(hi));
  }

  /** Otherwise it need not be: one unit received at 0.0000004 is carried at zero. */
  lemma {:induction false} AverageCanLeaveTheCosts()
    ensures var cat := Catalogue(map[1 := 1], map[], {});
            var k := Key(1, 1);
            var p := MovementRequest(k, Opening, 1, 1.0, Some(0.0000004), Reference("", None));
            && cat.Valid() && Resolve(cat, p) == Ok(1.0) && BaseUnitCost(p, 1.0) == 0.0000004
            && RecordMovement(cat, EMPTY, p).Ok?
            && BalanceOf(RecordMovement(cat, EMPTY, p).value, k).averageCost == 0
  {
    var cat := Catalogue(map[1 := 1], map[], {});
    var p := MovementRequest(Key(1, 1), Opening, 1, 1.0, Some(0.0000004), Reference("", None));
    assert Resolve(cat, p) == Ok(1.0);
    Round16Exact(4000000000);
    assert BaseUnitCost(p, 1.0) == 0.0000004;
    ReceiptRow(cat, NO_BALANCE, p, 1.0, NewRow(cat, NO_BALANCE, p, 1.0).value);
    FirstReceiptSetsCost(0.0, 1.0, 0.0000004);
    assert ToColumn(0.0000004) == 0;
  }

  // ---------- Reservations ----------

  /** Each release that happens names its reservation's own key. */
  predicate ReleasesMatch(cat: Catalogue, t: Tables, ops: seq<Op>)
    requires cat.Valid()
    decreases |ops|
  {
    ops == [] || (
      && (ops[0].Release? && 0 <= ops[0].id < |t.reservations| ==> t.reservations[ops[0].id].key == ops[0].k)
      && ReleasesMatch(cat, Next(cat, t, ops[0]), ops[1..]))
  }

  predicate HasOutward(op: Op) {
    exists p <- Requests(op) :: DirectionOf(p.movementType) == Some(Out)
  }

  ghost predicate WithinOnHand(t: Tables) {
    forall k :: BalanceOf(t, k).reserved <= BalanceOf(t, k).onHand
  }

  ghost predicate Reservable(t: Tables) {
    ReservedAgrees(t) && ReservationsPositive(t)
  }

  lemma {:induction false} MovementsKeepReserved(cat: Catalogue, t: Tables, ws: seq<Write>, t': Tables)
    requires cat.Valid() && Leads(cat, t, ws, t') && forall w <- ws :: w.Booked?
    ensures t'.reservations == t.reservations
    ensures forall k :: BalanceOf(t', k).reserved == BalanceOf(t, k).reserved
    ensures (forall w <- ws :: DirectionOf(w.p.movementType) != Some(Out)) ==>
              forall k :: BalanceOf(t', k).onHand >= BalanceOf(t, k).onHand
    decreases |ws|
  {
    if ws != [] {
      var next := Perform(cat, t, ws[0]).value;
      PostedQuantity(cat, t, ws[0].p, next);
      MovementsKeepReserved(cat, next, ws[1..], t');
    }
  }

  lemma {:induction false} OpKeepsReserved(cat: Catalogue, t: Tables, op: Op)
    requires cat.Valid() && Reservable(t) && ReleasesMatch(cat, t, [op])
    ensures Reservable(Next(cat, t, op))
    ensures WithinOnHand(t) && !HasOutward(op) ==> WithinOnHand(Next(cat, t, op))
  {
    if Apply(cat, t, op).Ok? {
      match op
      case ReserveStock(k, quantity) => ReservingKeeps(t, k, quantity, Next(cat, t, op));
      case Release(id, k) => ReleasingKeeps(t, id, k, Next(cat, t, op));
      case _ => MovementsOnly(cat, t, op);
    }
  }

  lemma {:induction false} ReservingKeeps(t: Tables, k: Key, quantity: real, t': Tables)
    requires Reserve(t, k, quantity) == Ok(t') && Reservable(t)
    ensures Reservable(t') && (WithinOnHand(t) ==> WithinOnHand(t'))
  {
    ReserveAgrees(t, k, quantity, t');
    forall k' | k' != k ensures BalanceOf(t', k') == BalanceOf(t, k') {}
  }

  lemma {:induction false} ReleasingKeeps(t: Tables, id: int, k: Key, t': Tables)
    requires ReleaseReservation(t, id, k) == Ok(t') && Reservable(t) && t.reservations[id].key == k
    ensures Reservable(t') && (WithinOnHand(t) ==> WithinOnHand(t'))
  {
    ReleaseAgrees(t, id, k, t');
    assert t.reservations[id] in t.reservations;
    SumActiveRelease(t.reservations, id, k);
    assert BalanceOf(t, k).reserved == SumActive(t.reservations, k);
    forall k' ensures BalanceOf(t', k').reserved <= BalanceOf(t, k').reserved
        && BalanceOf(t', k').onHand == BalanceOf(t, k').onHand {}
  }

  lemma {:induction false} MovementsOnly(cat: Catalogue, t: Tables, op: Op)
    requires cat.Valid() && (op.Move? || op.Adjust? || op.Transfer?) && Reservable(t) && Apply(cat, t, op).Ok?
    ensures Reservable(Next(cat, t, op))
    ensures WithinOnHand(t) && !HasOutward(op) ==> WithinOnHand(Next(cat, t, op))
  {
    var ps := Requests(op);
    if op.Move? { RecordOne(cat, t, op.p); }
    RecordAllLeads(cat, t, ps);
    var ws := Bookings(ps);
    var t' := Next(cat, t, op);
    assert forall w <- ws :: w.Booked? && w.p in ps;
    MovementsKeepReserved(cat, t, ws, t');
  }

  /** Over every run whose releases name their own keys, each reserved quantity is the sum of the
    * active reservations; if nothing moves out, it never exceeds the quantity on hand. */
  lemma {:induction false} ReservedFollowsReservations(cat: Catalogue, t: Tables, ops: seq<Op>)
    requires cat.Valid() && Reservable(t) && ReleasesMatch(cat, t, ops)
    ensures Reservable(Run(cat, t, ops))
    ensures WithinOnHand(t) && (forall op <- ops :: !HasOutward(op)) ==> WithinOnHand(Run(cat, t, ops))
    decreases |ops|
  {
    if ops != [] {
      assert [ops[0]][1..] == [];
      assert ReleasesMatch(cat, t, [ops[0]]);
      OpKeepsReserved(cat, t, ops[0]);
      ReservedFollowsReservations(cat, Next(cat, t, ops[0]), ops[1..]);
    }
  }
}
