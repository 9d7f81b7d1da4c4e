/** First movements: GetForUpdate locks nothing when the row does not exist yet.  Which rows must exist
  * for every schedule to be serial. */
module FirstMovements {
  import opened Wrappers
  import opened Decimals
  import opened Stock
  import opened StockLaws
  import opened StockInterleaving

  function Waiting(p: MovementRequest, read: Option<Balance>): Tx {
    Tx([p], [], Delta(map[], []), {}, read)
  }

  function Wrote(p: MovementRequest, posted: Posted): Delta {
    Delta(map[p.key := posted.balance], [posted.movement])
  }

  lemma {:induction false} ExecuteTwo(cat: Catalogue, s: System, a: Step, b: Step)
    requires cat.Valid()
    ensures Execute(cat, s, [a, b]) == Do(cat, Do(cat, s, a), b)
  {
    assert [a, b][1..] == [b];
    assert [b][1..] == [];
    assert Execute(cat, Do(cat, s, a), [b]) == Execute(cat, Do(cat, Do(cat, s, a), b), []);
  }

  lemma {:induction false} ExecuteAppend(cat: Catalogue, s: System, a: seq<Step>, b: seq<Step>)
    requires cat.Valid()
    ensures Execute(cat, s, a + b) == Execute(cat, Execute(cat, s, a), b)
    decreases |a|
  {
    if a == [] {
      assert a + b == b;
    } else {
      assert (a + b)[1..] == a[1..] + b;
      ExecuteAppend(cat, Do(cat, s, a[0]), a[1..], b);
    }
  }

  lemma {:induction false} BothRead(cat: Catalogue, start: Tables, p: MovementRequest)
    requires cat.Valid() && Resolve(cat, p).Ok? && p.key !in start.balances
    ensures Execute(cat, Execute(cat, Start(start), [Begin(1, [p]), Begin(2, [p])]), [GetForUpdate(1), GetForUpdate(2)])
            == System(start, map[1 := Waiting(p, Some(NO_BALANCE)), 2 := Waiting(p, Some(NO_BALANCE))], [])
  {
    hide Resolve;
    ExecuteTwo(cat, Start(start), Begin(1, [p]), Begin(2, [p]));
    var s2 := System(start, map[1 := Waiting(p, None), 2 := Waiting(p, None)], []);
    assert Do(cat, Do(cat, Start(start), Begin(1, [p])), Begin(2, [p])) == s2;
    ExecuteTwo(cat, s2, GetForUpdate(1), GetForUpdate(2));
  }

  /** The transaction writes what it read a stale row for, and commits over whatever is there. */
  lemma {:induction false} WritesStaleRow(cat: Catalogue, s: System, t: Uuid, p: MovementRequest, posted: Posted)
    requires cat.Valid() && PostOnRow(cat, NO_BALANCE, p) == Ok(posted)
    requires t in s.active && s.active[t] == Waiting(p, Some(NO_BALANCE))
             && forall u <- s.active :: s.active[u].locks == {}
    ensures Execute(cat, s, [Write(t), Commit(t)])
            == System(Merge(s.committed, Wrote(p, posted)), s.active - {t}, s.history + [[p]])
  {
    assert [p][1..] == [] && [] + [p] == [p] && [] + [posted.movement] == [posted.movement];
    var none: map<Key, Balance> := map[];
    assert none[p.key := posted.balance] == map[p.key := posted.balance] && {} + {p.key} == {p.key};
    var s1 := With(s, t, Tx([], [p], Wrote(p, posted), {p.key}, None));
    assert Do(cat, s, Write(t)) == s1;
    assert s1.active - {t} == s.active - {t};
    ExecuteTwo(cat, s, Write(t), Commit(t));
  }

  lemma {:induction false} BothWrite(cat: Catalogue, s: System, p: MovementRequest, posted: Posted)
    requires cat.Valid() && PostOnRow(cat, NO_BALANCE, p) == Ok(posted) && s.history == []
    requires s.active == map[1 := Waiting(p, Some(NO_BALANCE)), 2 := Waiting(p, Some(NO_BALANCE))]
    ensures var s' := Execute(cat, Execute(cat, s, [Write(1), Commit(1)]), [Write(2), Commit(2)]);
      && s'.history == [[p], [p]]
      && s'.committed.movements == (s.committed.movements + [posted.movement]) + [posted.movement]
      && BalanceOf(s'.committed, p.key) == posted.balance
  {
    WritesStaleRow(cat, s, 1, p, posted);
    var s6 := Execute(cat, s, [Write(1), Commit(1)]);
    assert s6.active == map[2 := Waiting(p, Some(NO_BALANCE))];
    WritesStaleRow(cat, s6, 2, p, posted);
  }

  /** Posting the same movement again, one after the other, moves the quantity on. */
  lemma {:induction false} PostingMovesOn(cat: Catalogue, p: MovementRequest, posted: Posted)
    requires cat.Valid() && PostOnRow(cat, NO_BALANCE, p) == Ok(posted)
    ensures PostOnRow(cat, posted.balance, p).Ok?
            ==> PostOnRow(cat, posted.balance, p).value.balance.onHand != posted.balance.onHand
  {
    var factor := Resolve(cat, p).value;
    assert BaseQuantity(p, factor) > 0.0;
    StoredQuantity(NO_BALANCE, p, factor);
    StoredQuantity(posted.balance, p, factor);
    ColumnIsNear(posted.balance.onHand, BaseQuantity(p, factor));
  }

  lemma {:induction false} ColumnIsNear(c: Column, x: real)
    requires x > 0.0 && ToColumn(x) > 0
    ensures c >= ToColumn(x) ==> FromColumn(c) + x > 0.0
    ensures c <= -ToColumn(x) ==> x - FromColumn(c) > 0.0
  {
  }

  /** Two transactions with the same program that both read before either writes. */
  function Racing(p: MovementRequest): seq<Step> {
    [Begin(1, [p]), Begin(2, [p])]
    + ([GetForUpdate(1), GetForUpdate(2)] + ([Write(1), Commit(1)] + [Write(2), Commit(2)]))
  }

  lemma {:induction false} RacingRuns(cat: Catalogue, start: Tables, p: MovementRequest, posted: Posted)
    requires cat.Valid() && p.key !in start.balances && PostOnRow(cat, NO_BALANCE, p) == Ok(posted)
    ensures var s := Execute(cat, Start(start), Racing(p));
      && s.history == [[p], [p]]
      && s.committed.movements == (start.movements + [posted.movement]) + [posted.movement]
      && BalanceOf(s.committed, p.key) == posted.balance
  {
    BothRead(cat, start, p);
    var begins, gets := [Begin(1, [p]), Begin(2, [p])], [GetForUpdate(1), GetForUpdate(2)];
    var first, second := [Write(1), Commit(1)], [Write(2), Commit(2)];
    var s2 := Execute(cat, Start(start), begins);
    var s4 := Execute(cat, s2, gets);
    BothWrite(cat, s4, p, posted);
    hide Execute, PostOnRow, Resolve;
    ExecuteAppend(cat, Start(start), begins, gets + (first + second));
    ExecuteAppend(cat, s2, gets, first + second);
    ExecuteAppend(cat, s4, first, second);
  }

  /** A row that does not exist is not locked.  Whatever movement two transactions post first on
    * the same key, both can commit: the ledger then counts it twice and the balance row once, which no
    * serial run of the two does. */
  lemma {:induction false} FirstMovementCanBeLost(cat: Catalogue, start: Tables, p: MovementRequest, posted: Posted)
    requires cat.Valid() && p.key !in start.balances && PostOnRow(cat, NO_BALANCE, p) == Ok(posted)
    ensures var s := Execute(cat, Start(start), Racing(p));
      && s.history == [[p], [p]]
      && LedgerSum(s.committed.movements, p.key) == LedgerSum(start.movements, p.key) + 2 * Signed(posted.movement)
      && BalanceOf(s.committed, p.key) == posted.balance
      && Serial(cat, start, s.history) != Ok(s.committed)
  {
    PostedKey(cat, p, posted);
    hide Execute, PostOnRow, BalanceOf;
    RacingRuns(cat, start, p, posted);
    LedgerSumAppend(start.movements, posted.movement, p.key);
    LedgerSumAppend(start.movements + [posted.movement], posted.movement, p.key);
    SerialMovesOn(cat, start, p, posted);
    hide Serial, LedgerSum;
  }

  lemma {:induction false} PostedKey(cat: Catalogue, p: MovementRequest, posted: Posted)
    requires cat.Valid() && PostOnRow(cat, NO_BALANCE, p) == Ok(posted)
    ensures posted.movement.key == p.key
  {
  }

  lemma {:induction false} SerialMovesOn(cat: Catalogue, start: Tables, p: MovementRequest, posted: Posted)
    requires cat.Valid() && p.key !in start.balances && PostOnRow(cat, NO_BALANCE, p) == Ok(posted)
    ensures var r := Serial(cat, start, [[p], [p]]); r.Ok? ==> BalanceOf(r.value, p.key) != posted.balance
  {
    PostingMovesOn(cat, p, posted);
    hide PostOnRow;
    assert [[p], [p]][..1] == [[p]] && [[p]][..0] == [];
    RecordOne(cat, start, p);
    var one := RecordMovement(cat, start, p).value;
    assert Serial(cat, start, [[p]]) == Ok(one);
    RecordOne(cat, one, p);
  }

  // ---------- Exactly when every schedule is serial ----------

  /** Every transaction's program stays on the rows of ks. */
  predicate Touches(steps: seq<Step>, ks: set<Key>) {
    forall step <- steps | step.Begin? :: forall p <- step.ps :: p.key in ks
  }

  /** The schedule commits what its programs commit one at a time in commit order. */
  ghost predicate IsSerial(cat: Catalogue, start: Tables, steps: seq<Step>)
    requires cat.Valid()
  {
    var s := Execute(cat, Start(start), steps); Serial(cat, start, s.history) == Ok(s.committed)
  }

  /** Whatever transactions on ks are scheduled how, what they commit is what they commit one at a time
    * in commit order. */
  ghost predicate AlwaysSerial(cat: Catalogue, start: Tables, ks: set<Key>)
    requires cat.Valid()
  {
    forall steps: seq<Step> | Touches(steps, ks) :: IsSerial(cat, start, steps)
  }

  /** Each known product's row in ks exists. */
  predicate RowsExist(cat: Catalogue, start: Tables, ks: set<Key>) {
    forall k <- ks | k.variant in cat.baseUnit :: k in start.balances
  }

  /** Programs still to run stay on ks, and the rows of ks are still there. */
  predicate Staying(cat: Catalogue, s: System, ks: set<Key>) {
    RowsExist(cat, s.committed, ks) && forall t <- s.active :: forall p <- s.active[t].todo :: p.key in ks
  }

  lemma {:induction false} StepStays(cat: Catalogue, s: System, step: Step, ks: set<Key>)
    requires cat.Valid() && Staying(cat, s, ks) && Touches([step], ks)
    ensures FindsRow(cat, s, step) && Staying(cat, Do(cat, s, step), ks)
  {
    assert step in [step];
    hide PostOnRow;
  }

  lemma {:induction false} StayingFindsRows(cat: Catalogue, s: System, steps: seq<Step>, ks: set<Key>)
    requires cat.Valid() && Staying(cat, s, ks) && Touches(steps, ks)
    ensures AlwaysFindsRow(cat, s, steps)
    decreases |steps|
  {
    hide Staying, FindsRow, Do;
    if steps != [] {
      StepStays(cat, s, steps[0], ks);
      StayingFindsRows(cat, Do(cat, s, steps[0]), steps[1..], ks);
    }
  }

  lemma {:induction false} RacingTouches(p: MovementRequest, ks: set<Key>)
    requires p.key in ks
    ensures Touches(Racing(p), ks)
  {
  }

  /** Any known product can be opened on a missing row. */
  function Opened(cat: Catalogue, k: Key): MovementRequest
    requires k.variant in cat.baseUnit
  {
    MovementRequest(k, Opening, cat.baseUnit[k.variant], 1.0, Some(1.0), Reference("", None))
  }

  lemma {:induction false} OpenedPosts(cat: Catalogue, k: Key)
    requires cat.Valid() && k.variant in cat.baseUnit
    ensures PostOnRow(cat, NO_BALANCE, Opened(cat, k)).Ok?
  {
    assert ToColumn(1.0) == 1000000;
  }

  /** The row locks make every schedule of transactions on ks serial exactly when the row of each known
    * product in ks already exists. */
  lemma {:induction false} SerialExactlyOnExistingRows(cat: Catalogue, start: Tables, ks: set<Key>)
    requires cat.Valid()
    ensures AlwaysSerial(cat, start, ks) <==> RowsExist(cat, start, ks)
  {
    if RowsExist(cat, start, ks) {
      forall steps: seq<Step> | Touches(steps, ks) ensures IsSerial(cat, start, steps) {
        StayingFindsRows(cat, Start(start), steps, ks);
        InterleavingsAreSerial(cat, start, steps);
      }
    } else {
      var k :| k in ks && k.variant in cat.baseUnit && k !in start.balances;
      OpenedPosts(cat, k);
      FirstMovementCanBeLost(cat, start, Opened(cat, k), PostOnRow(cat, NO_BALANCE, Opened(cat, k)).value);
      RacingTouches(Opened(cat, k), ks);
      hide Racing, Execute, Serial, PostOnRow, Touches;
      assert !IsSerial(cat, start, Racing(Opened(cat, k)));
    }
  }
}
