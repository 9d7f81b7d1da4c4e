/** Concurrent movements, reservations and releases: all three lock the balance row, so that the last
  * unit is not promised twice.  This is the machine of StockInterleaving with two more kinds of work and
  * without its history.  Inserting a reservation, summing and writing the row back is one step
  * here: what others commit in between is under other rows' locks and so under other keys. */
module ReservationInterleaving {
  import opened Wrappers
  import opened Decimals
  import opened Stock
  import opened StockLaws
  import StockLimits
  import StockRuns

  datatype Work = Book(p: MovementRequest) | Hold(k: Key, quantity: real) | Free(id: int, k: Key) {
    function Row(): Key {
      if Book? then p.key else k
    }
  }

  /** What a transaction has written and not yet committed; `freed` are the reservations it released. */
  datatype Delta = Delta(rows: map<Key, Balance>, entries: seq<Movement>, held: seq<Reservation>, freed: set<int>)

  const NOTHING := Delta(map[], [], [], {})

  /** A running transaction; `released` says that its next work's reservation is already released and
    * only the balance row is left to write. */
  datatype Tx = Tx(todo: seq<Work>, delta: Delta, locks: set<Key>, read: Option<Balance>, released: bool)

  datatype System = System(committed: Tables, active: map<Uuid, Tx>)

  datatype Step = Begin(t: Uuid, ws: seq<Work>) | ReleaseRow(t: Uuid) | GetForUpdate(t: Uuid) | Write(t: Uuid)
      | Commit(t: Uuid) | Rollback(t: Uuid)

  /** The balance row a transaction sees: its own write, or the committed one. */
  function Seen(committed: Tables, d: Delta, k: Key): Balance {
    if k in d.rows then d.rows[k] else BalanceOf(committed, k)
  }

  function AfterReleases(rs: seq<Reservation>, freed: set<int>): (r: seq<Reservation>)
    ensures |r| == |rs|
  {
    seq(|rs|, i requires 0 <= i < |rs| => if i in freed then rs[i].(status := Released) else rs[i])
  }

  /** The reservations a transaction sees: the committed ones as far as it has not released them, and
    * its own. */
  function SeenReservations(committed: Tables, d: Delta): seq<Reservation> {
    AfterReleases(committed.reservations, d.freed) + d.held
  }

  predicate RowExists(s: System, tx: Tx, k: Key) {
    k in tx.delta.rows || k in s.committed.balances
  }

  /** Nobody else holds the lock of balance row k. */
  predicate Unlocked(s: System, t: Uuid, k: Key) {
    forall u <- s.active | u != t :: k !in s.active[u].locks
  }

  /** Nobody has released reservation id without committing, which would keep its row locked. */
  predicate Untouched(s: System, id: int) {
    forall u <- s.active :: id !in s.active[u].delta.freed
  }

  function With(s: System, t: Uuid, tx: Tx): System {
    s.(active := s.active[t := tx])
  }

  function Merge(t: Tables, d: Delta): Tables {
    Tables(t.balances + d.rows, t.movements + d.entries, SeenReservations(t, d))
  }

  /** A work's writes on the row that was read, once it is locked; None if the work fails. */
  function Written(cat: Catalogue, committed: Tables, tx: Tx): Option<Delta>
    requires cat.Valid() && tx.todo != [] && tx.read.Some?
  {
    var row, d := tx.read.value, tx.delta;
    match tx.todo[0]
    case Book(p) =>
      var posted := PostOnRow(cat, row, p);
      if posted.Err? then None else Some(d.(rows := d.rows[p.key := posted.value.balance],
                                            entries := d.entries + [posted.value.movement]))
    case Hold(k, quantity) =>
      if quantity <= 0.0 || FromColumn(Available(row)) < quantity || ToColumn(quantity) <= 0 then None
      else Some(WithSum(committed, d.(held := d.held + [Reservation(k, ToColumn(quantity), Active)]), k, row))
    case Free(_, k) => Some(WithSum(committed, d, k, row))
  }

  /** The row written back with its reserved quantity summed afresh. */
  function WithSum(committed: Tables, d: Delta, k: Key, row: Balance): Delta {
    d.(rows := d.rows[k := row.(reserved := SumActive(SeenReservations(committed, d), k))])
  }

  /** One scheduled step; a step that is not possible or must wait changes nothing. */
  function Do(cat: Catalogue, s: System, step: Step): System
    requires cat.Valid()
  {
    var t := step.t;
    if step.Begin? then
      if t in s.active then s else With(s, t, Tx(step.ws, NOTHING, {}, None, false))
    else if t !in s.active then s
    else
      var tx := s.active[t];
      match step
      case ReleaseRow(_) =>
        if tx.todo == [] || !tx.todo[0].Free? || tx.released then s
        else
          var id := tx.todo[0].id;
          if !(0 <= id < |s.committed.reservations|) || !s.committed.reservations[id].status.Active?
              || !Untouched(s, id) then s
          else With(s, t, tx.(released := true, delta := tx.delta.(freed := tx.delta.freed + {id})))
      case GetForUpdate(_) =>
        if tx.todo == [] || tx.read.Some? || (tx.todo[0].Free? && !tx.released) then s
        else if tx.todo[0].Book? && Resolve(cat, tx.todo[0].p).Err? then s
        else
          var k := tx.todo[0].Row();
          if !RowExists(s, tx, k) then With(s, t, tx.(read := Some(NO_BALANCE)))
          else if !Unlocked(s, t, k) then s
          else With(s, t, tx.(read := Some(Seen(s.committed, tx.delta, k)), locks := tx.locks + {k}))
      case Write(_) =>
        if tx.todo == [] || tx.read.None? || !Unlocked(s, t, tx.todo[0].Row()) then s
        else
          var written := Written(cat, s.committed, tx);
          if written.None? then s
          else With(s, t, Tx(tx.todo[1..], written.value, tx.locks + {tx.todo[0].Row()}, None, false))
      case Commit(_) =>
        if tx.todo != [] then s else System(Merge(s.committed, tx.delta), s.active - {t})
      case Rollback(_) =>
        System(s.committed, s.active - {t})
  }

  function Execute(cat: Catalogue, s: System, steps: seq<Step>): System
    requires cat.Valid()
    decreases |steps|
  {
    if steps == [] then s else Execute(cat, Do(cat, s, steps[0]), steps[1..])
  }

  function Start(t: Tables): System {
    System(t, map[])
  }

  /** A movement finds its row, and a release names its reservation's own key, as it should. */
  predicate Orderly(cat: Catalogue, s: System, step: Step)
    requires cat.Valid()
  {
    step.t in s.active && s.active[step.t].todo != [] ==>
      var tx := s.active[step.t];
      && (step.GetForUpdate? && tx.todo[0].Book? && Resolve(cat, tx.todo[0].p).Ok?
          ==> RowExists(s, tx, tx.todo[0].Row()))
      && (step.ReleaseRow? && tx.todo[0].Free? && 0 <= tx.todo[0].id < |s.committed.reservations|
          ==> s.committed.reservations[tx.todo[0].id].key == tx.todo[0].k)
  }

  predicate AlwaysOrderly(cat: Catalogue, s: System, steps: seq<Step>)
    requires cat.Valid()
    decreases |steps|
  {
    steps == [] || (Orderly(cat, s, steps[0]) && AlwaysOrderly(cat, Do(cat, s, steps[0]), steps[1..]))
  }

  // ---------- Sums of reservations ----------

  lemma {:induction false} SumActiveConcat(a: seq<Reservation>, b: seq<Reservation>, k: Key)
    ensures SumActive(a + b, k) == SumActive(a, k) + SumActive(b, k)
    decreases |b|
  {
    if b == [] {
      assert a + b == a;
    } else {
      assert (a + b)[..|a + b| - 1] == a + b[..|b| - 1];
      SumActiveConcat(a, b[..|b| - 1], k);
    }
  }

  predicate AlikeFor(r: Reservation, q: Reservation, k: Key) {
    r == q || (r.key != k && q.key != k)
  }

  /** Reservations of other keys do not matter. */
  lemma {:induction false} SameForKey(a: seq<Reservation>, b: seq<Reservation>, k: Key)
    requires |a| == |b| && forall i | 0 <= i < |a| :: AlikeFor(a[i], b[i], k)
    ensures SumActive(a, k) == SumActive(b, k)
    decreases |a|
  {
    if a != [] {
      var n := |a| - 1;
      forall i | 0 <= i < n ensures AlikeFor(a[..n][i], b[..n][i], k) { assert AlikeFor(a[i], b[i], k); }
      SameForKey(a[..n], b[..n], k);
      assert AlikeFor(a[n], b[n], k);
    }
  }

  lemma {:induction false} NoneForKey(rs: seq<Reservation>, k: Key)
    requires forall r <- rs :: r.key != k
    ensures SumActive(rs, k) == 0
    decreases |rs|
  {
    if rs != [] { NoneForKey(rs[..|rs| - 1], k); }
  }

  predicate Lowered(r: Reservation, q: Reservation) {
    r.quantity > 0 && (q == r || q == r.(status := Released))
  }

  /** Releasing more never raises a sum. */
  lemma {:induction false} ReleasingLowers(a: seq<Reservation>, b: seq<Reservation>, k: Key)
    requires |a| == |b| && forall i | 0 <= i < |a| :: Lowered(a[i], b[i])
    ensures SumActive(b, k) <= SumActive(a, k)
    decreases |a|
  {
    if a != [] {
      var n := |a| - 1;
      forall i | 0 <= i < n ensures Lowered(a[..n][i], b[..n][i]) { assert Lowered(a[i], b[i]); }
      ReleasingLowers(a[..n], b[..n], k);
      assert Lowered(a[n], b[n]);
    }
  }

  // ---------- What every step keeps ----------

  /** The row is still to be written for a reservation already released. */
  predicate Pending(tx: Tx, k: Key) {
    tx.released && tx.todo != [] && tx.todo[0].Row() == k
  }

  /** Each row the transaction wrote carries the sum of the reservations it sees, or more while a
    * release is pending on it. */
  ghost predicate RowsAgree(c: Tables, tx: Tx) {
    forall k <- tx.delta.rows :: var sum := SumActive(SeenReservations(c, tx.delta), k);
      if Pending(tx, k) then tx.delta.rows[k].reserved >= sum else tx.delta.rows[k].reserved == sum
  }

  /** It holds the lock of each row it wrote, and wrote a row for each reservation it made or released. */
  ghost predicate Covered(c: Tables, tx: Tx) {
    && tx.delta.rows.Keys <= tx.locks
    && (forall r <- tx.delta.held :: r.key in tx.delta.rows && r.quantity > 0)
    && (forall i <- tx.delta.freed :: 0 <= i < |c.reservations|
          && (c.reservations[i].key in tx.delta.rows || Pending(tx, c.reservations[i].key)))
    && (tx.released ==> tx.todo != [] && tx.todo[0].Free? && tx.todo[0].k in c.balances)
  }

  /** What it last read is the row as it stands, or no row, on which nothing can be reserved. */
  ghost predicate Current(c: Tables, tx: Tx) {
    tx.read.Some? ==>
      && tx.todo != []
      && var k := tx.todo[0].Row();
         || (k in tx.locks && tx.read.value == Seen(c, tx.delta, k) && (k in tx.delta.rows || k in c.balances))
         || (tx.todo[0].Hold? && tx.read.value == NO_BALANCE)
  }

  ghost predicate Exclusive(s: System) {
    forall t <- s.active, u <- s.active | t != u ::
      s.active[t].locks !! s.active[u].locks && s.active[t].delta.freed !! s.active[u].delta.freed
  }

  ghost predicate Sound(c: Tables, tx: Tx) {
    RowsAgree(c, tx) && Covered(c, tx) && Current(c, tx)
  }

  ghost predicate Settled(s: System) {
    StockRuns.Reservable(s.committed) && Exclusive(s) && forall t <- s.active :: Sound(s.committed, s.active[t])
  }

  /** A row's reserved quantity, as the transaction sees it, is the sum of the reservations it sees,
    * or more while a release is pending. */
  lemma {:induction false} SeenAgrees(c: Tables, tx: Tx, k: Key)
    requires StockRuns.Reservable(c) && RowsAgree(c, tx) && Covered(c, tx)
    ensures var sum := SumActive(SeenReservations(c, tx.delta), k);
            if Pending(tx, k) then Seen(c, tx.delta, k).reserved >= sum else Seen(c, tx.delta, k).reserved == sum
  {
    if k !in tx.delta.rows {
      var rs := AfterReleases(c.reservations, tx.delta.freed);
      SumActiveConcat(rs, tx.delta.held, k);
      NoneForKey(tx.delta.held, k);
      if Pending(tx, k) {
        forall i | 0 <= i < |rs| ensures Lowered(c.reservations[i], rs[i]) {
          assert c.reservations[i] in c.reservations;
        }
        ReleasingLowers(c.reservations, rs, k);
      } else {
        SameForKey(c.reservations, rs, k);
      }
    }
  }

  lemma {:induction false} SumAtLeast(rs: seq<Reservation>, i: nat)
    requires i < |rs| && rs[i].status.Active? && forall r <- rs :: r.quantity > 0
    ensures SumActive(rs, rs[i].key) > 0
    decreases |rs|
  {
    var front := rs[..|rs| - 1];
    if i < |front| {
      SumAtLeast(front, i);
    } else {
      SumNotNegative(front, rs[i].key);
    }
    assert Last(rs) in rs;
  }

  lemma {:induction false} SumNotNegative(rs: seq<Reservation>, k: Key)
    requires forall r <- rs :: r.quantity > 0
    ensures SumActive(rs, k) >= 0
    decreases |rs|
  {
    if rs != [] {
      SumNotNegative(rs[..|rs| - 1], k);
      assert Last(rs) in rs;
    }
  }

  /** An active reservation's key has a row, since it is reserved there. */
  lemma {:induction false} ActiveHasRow(c: Tables, id: nat)
    requires StockRuns.Reservable(c) && id < |c.reservations| && c.reservations[id].status.Active?
    ensures c.reservations[id].key in c.balances
  {
    SumAtLeast(c.reservations, id);
    assert BalanceOf(c, c.reservations[id].key).reserved == SumActive(c.reservations, c.reservations[id].key);
  }

  lemma {:induction false} ReleaseRowKeeps(c: Tables, tx: Tx)
    requires StockRuns.Reservable(c) && Sound(c, tx) && tx.todo != [] && tx.todo[0].Free? && !tx.released
    requires var id := tx.todo[0].id;
             0 <= id < |c.reservations| && c.reservations[id].status.Active? && c.reservations[id].key == tx.todo[0].k
    ensures Sound(c, tx.(released := true, delta := tx.delta.(freed := tx.delta.freed + {tx.todo[0].id})))
  {
    var id, k := tx.todo[0].id, tx.todo[0].k;
    var d' := tx.delta.(freed := tx.delta.freed + {id});
    ActiveHasRow(c, id);
    hide SumActive, SeenReservations;
    forall j <- tx.delta.rows
      ensures var was, sum := SumActive(SeenReservations(c, tx.delta), j), SumActive(SeenReservations(c, d'), j);
              if j == k then sum <= was else sum == was
    {
      ReleaseRowSum(c, tx.delta, id, j);
    }
  }

  /** Releasing a reservation lowers the sum of its own key and no other. */
  lemma {:induction false} ReleaseRowSum(c: Tables, d: Delta, id: int, j: Key)
    requires StockRuns.Reservable(c) && 0 <= id < |c.reservations|
    ensures var was, sum := SumActive(SeenReservations(c, d), j),
            SumActive(SeenReservations(c, d.(freed := d.freed + {id})), j);
            if j == c.reservations[id].key then sum <= was else sum == was
  {
    var a, b := AfterReleases(c.reservations, d.freed), AfterReleases(c.reservations, d.freed + {id});
    SumActiveConcat(a, d.held, j);
    SumActiveConcat(b, d.held, j);
    hide SumActive;
    if j == c.reservations[id].key {
      forall i | 0 <= i < |a| ensures Lowered(a[i], b[i]) { assert c.reservations[i] in c.reservations; }
      ReleasingLowers(a, b, j);
    } else {
      SameForKey(a, b, j);
    }
  }

  lemma {:induction false} PostingKeepsReserved(cat: Catalogue, row: Balance, p: MovementRequest)
    requires cat.Valid() && PostOnRow(cat, row, p).Ok?
    ensures PostOnRow(cat, row, p).value.balance.reserved == row.reserved
  {
  }

  function Wrote(tx: Tx, d: Delta): Tx
    requires tx.todo != []
  {
    Tx(tx.todo[1..], d, tx.locks + {tx.todo[0].Row()}, None, false)
  }

  lemma {:induction false} WriteCovers(cat: Catalogue, c: Tables, tx: Tx)
    requires cat.Valid() && Covered(c, tx) && tx.todo != [] && tx.read.Some? && Written(cat, c, tx).Some?
    ensures Covered(c, Wrote(tx, Written(cat, c, tx).value))
  {
    hide PostOnRow, SumActive, SeenReservations, ToColumn;
    var d' := Written(cat, c, tx).value;
    assert forall r <- d'.held :: r in tx.delta.held || (r.key == tx.todo[0].Row() && r.quantity > 0);
  }

  /** The written row carries the new sum. */
  lemma {:induction false} WrittenRow(cat: Catalogue, c: Tables, tx: Tx)
    requires cat.Valid() && StockRuns.Reservable(c) && Sound(c, tx) && tx.todo != [] && tx.read.Some?
             && Written(cat, c, tx).Some?
    ensures var k, d' := tx.todo[0].Row(), Written(cat, c, tx).value;
      && k in d'.rows && d'.rows == tx.delta.rows[k := d'.rows[k]]
      && d'.rows[k].reserved == SumActive(SeenReservations(c, d'), k)
  {
    SeenAgrees(c, tx, tx.todo[0].Row());
    if tx.todo[0].Book? { PostingKeepsReserved(cat, tx.read.value, tx.todo[0].p); }
    hide PostOnRow, SumActive, SeenReservations, ToColumn, Seen, Available, Covered, RowsAgree;
  }

  /** No other key's sum changes. */
  lemma {:induction false} OtherSums(cat: Catalogue, c: Tables, tx: Tx, j: Key)
    requires cat.Valid() && tx.todo != [] && tx.read.Some? && Written(cat, c, tx).Some? && j != tx.todo[0].Row()
    ensures SumActive(SeenReservations(c, Written(cat, c, tx).value), j) == SumActive(SeenReservations(c, tx.delta), j)
  {
    var d' := Written(cat, c, tx).value;
    hide PostOnRow, SumActive, ToColumn;
    if tx.todo[0].Hold? {
      var r := d'.held[|tx.delta.held|];
      assert SeenReservations(c, d') == SeenReservations(c, tx.delta) + [r];
      SumActiveAppend(SeenReservations(c, tx.delta), r, j);
    }
  }

  lemma {:induction false} WriteAgrees(cat: Catalogue, c: Tables, tx: Tx)
    requires cat.Valid() && StockRuns.Reservable(c) && Sound(c, tx) && tx.todo != [] && tx.read.Some?
             && Written(cat, c, tx).Some?
    ensures RowsAgree(c, Wrote(tx, Written(cat, c, tx).value))
  {
    hide Written, SumActive, SeenReservations, Covered, Current, StockRuns.Reservable;
    WrittenRow(cat, c, tx);
    var k, d' := tx.todo[0].Row(), Written(cat, c, tx).value;
    forall j <- d'.rows ensures d'.rows[j].reserved == SumActive(SeenReservations(c, d'), j) {
      if j != k { OtherSums(cat, c, tx, j); }
    }
  }

  lemma {:induction false} OwnStepKeeps(cat: Catalogue, s: System, step: Step)
    requires cat.Valid() && Settled(s) && Orderly(cat, s, step) && step.t in s.active
    requires step.ReleaseRow? || step.GetForUpdate? || step.Write?
    ensures step.t in Do(cat, s, step).active && Sound(s.committed, Do(cat, s, step).active[step.t])
  {
    var tx := s.active[step.t];
    assert Sound(s.committed, tx);
    if Do(cat, s, step) != s {
      if step.ReleaseRow? { ReleaseRowKeeps(s.committed, tx); }
      if step.Write? {
        WriteCovers(cat, s.committed, tx);
        WriteAgrees(cat, s.committed, tx);
      }
    }
  }

  lemma {:induction false} StepExclusive(cat: Catalogue, s: System, step: Step)
    requires cat.Valid() && Settled(s) && !step.Commit?
    ensures Exclusive(Do(cat, s, step)) && Do(cat, s, step).committed == s.committed
    ensures forall t <- Do(cat, s, step).active | t != step.t
            :: t in s.active && Do(cat, s, step).active[t] == s.active[t]
  {
    hide Written, Sound, StockRuns.Reservable, Seen;
    if step.Write? && step.t in s.active && Do(cat, s, step) != s {
      WriteFreesNothing(cat, s.committed, s.active[step.t]);
    }
  }

  lemma {:induction false} WriteFreesNothing(cat: Catalogue, c: Tables, tx: Tx)
    requires cat.Valid() && tx.todo != [] && tx.read.Some? && Written(cat, c, tx).Some?
    ensures Written(cat, c, tx).value.freed == tx.delta.freed
  {
  }

  lemma {:induction false} StepKeeps(cat: Catalogue, s: System, step: Step)
    requires cat.Valid() && Settled(s) && Orderly(cat, s, step) && !step.Commit?
    ensures Settled(Do(cat, s, step))
  {
    var s' := Do(cat, s, step);
    if step.t in s.active && (step.ReleaseRow? || step.GetForUpdate? || step.Write?) { OwnStepKeeps(cat, s, step); }
    if step.Begin? && step.t !in s.active { assert Sound(s.committed, s'.active[step.t]); }
    assert step.Rollback? ==> step.t !in s'.active;
    StepExclusive(cat, s, step);
    hide Do, Sound, StockRuns.Reservable, Exclusive;
    forall t <- s'.active ensures Sound(s'.committed, s'.active[t]) {
      if t in s.active { assert Sound(s.committed, s.active[t]); }
    }
  }

  /** A commit leaves every row with the sum of the committed reservations. */
  lemma {:induction false} MergeKeepsReservable(c: Tables, tx: Tx)
    requires StockRuns.Reservable(c) && Sound(c, tx) && tx.todo == []
    ensures StockRuns.Reservable(Merge(c, tx.delta))
  {
    var c' := Merge(c, tx.delta);
    forall k ensures BalanceOf(c', k).reserved == SumActive(c'.reservations, k) { SeenAgrees(c, tx, k); }
    forall r <- c'.reservations ensures r.quantity > 0 {
      var i :| 0 <= i < |c'.reservations| && c'.reservations[i] == r;
      if i < |c.reservations| {
        assert c.reservations[i] in c.reservations;
      } else {
        assert r == tx.delta.held[i - |c.reservations|];
      }
    }
  }

  /** What one transaction commits under other keys changes no sum another transaction sees. */
  lemma {:induction false} MergedSum(c: Tables, d: Delta, e: Delta, k: Key)
    requires forall r <- d.held :: r.key != k
    requires forall i <- d.freed :: 0 <= i < |c.reservations| && c.reservations[i].key != k
    requires forall i <- e.freed :: 0 <= i < |c.reservations|
    ensures SumActive(SeenReservations(Merge(c, d), e), k) == SumActive(SeenReservations(c, e), k)
  {
    var mine, rs := AfterReleases(c.reservations, e.freed), Merge(c, d).reservations;
    var front, tail := AfterReleases(rs[..|mine|], e.freed), rs[|mine|..];
    assert AfterReleases(rs, e.freed) == front + tail;
    assert tail == d.held;
    forall i | 0 <= i < |mine| ensures AlikeFor(mine[i], front[i], k) {
      assert rs[i] == AfterReleases(c.reservations, d.freed)[i];
    }
    hide Merge, AfterReleases, SumActive;
    SumActiveConcat(mine, e.held, k);
    SumActiveConcat(front + tail, e.held, k);
    SumActiveConcat(front, tail, k);
    NoneForKey(tail, k);
    SameForKey(mine, front, k);
  }

  lemma {:induction false} OtherStaysSound(c: Tables, tx: Tx, other: Tx)
    requires StockRuns.Reservable(c) && Sound(c, tx) && Sound(c, other) && tx.todo == [] && tx.locks !! other.locks
    ensures Sound(Merge(c, tx.delta), other)
  {
    var c' := Merge(c, tx.delta);
    forall k <- other.delta.rows
      ensures SumActive(SeenReservations(c', other.delta), k) == SumActive(SeenReservations(c, other.delta), k)
    {
      assert k !in tx.delta.rows;
      MergedSum(c, tx.delta, other.delta, k);
    }
    assert forall i | 0 <= i < |c.reservations| :: c'.reservations[i].key == c.reservations[i].key;
    hide SumActive, SeenReservations;
  }

  lemma {:induction false} CommitKeeps(cat: Catalogue, s: System, t: Uuid)
    requires cat.Valid() && Settled(s)
    ensures Settled(Do(cat, s, Commit(t)))
  {
    var s' := Do(cat, s, Commit(t));
    if s' != s {
      MergeKeepsReservable(s.committed, s.active[t]);
      hide Sound, StockRuns.Reservable, Merge;
      forall u <- s'.active ensures Sound(s'.committed, s'.active[u]) {
        OtherStaysSound(s.committed, s.active[t], s.active[u]);
      }
    }
  }

  lemma {:induction false} StepsKeepSettled(cat: Catalogue, s: System, steps: seq<Step>)
    requires cat.Valid() && Settled(s) && AlwaysOrderly(cat, s, steps)
    ensures Settled(Execute(cat, s, steps))
    decreases |steps|
  {
    hide Settled, Do, Orderly;
    if steps != [] {
      if steps[0].Commit? { CommitKeeps(cat, s, steps[0].t); } else { StepKeeps(cat, s, steps[0]); }
      StepsKeepSettled(cat, Do(cat, s, steps[0]), steps[1..]);
    }
  }

  /** However movements, reservations and releases interleave, each committed row's reserved quantity
    * is the sum of the committed active reservations. */
  lemma {:induction false} InterleavedReservationsAgree(cat: Catalogue, start: Tables, steps: seq<Step>)
    requires cat.Valid() && StockRuns.Reservable(start) && AlwaysOrderly(cat, Start(start), steps)
    ensures StockRuns.Reservable(Execute(cat, Start(start), steps).committed)
  {
    StepsKeepSettled(cat, Start(start), steps);
  }

  // ---------- Never more reserved than on hand ----------

  /** An outward movement takes no more than is available on the row it read. */
  predicate FitsRow(cat: Catalogue, row: Balance, p: MovementRequest)
    requires cat.Valid()
  {
    DirectionOf(p.movementType) == Some(Out) && Resolve(cat, p).Ok?
    ==> StockLimits.Taken(row, p, Resolve(cat, p).value) <= Available(row)
  }

  predicate Fits(cat: Catalogue, s: System, step: Step)
    requires cat.Valid()
  {
    step.Write? && step.t in s.active ==>
      var tx := s.active[step.t];
      tx.todo != [] && tx.todo[0].Book? && tx.read.Some? ==> FitsRow(cat, tx.read.value, tx.todo[0].p)
  }

  predicate AlwaysFits(cat: Catalogue, s: System, steps: seq<Step>)
    requires cat.Valid()
    decreases |steps|
  {
    steps == [] || (Fits(cat, s, steps[0]) && AlwaysFits(cat, Do(cat, s, steps[0]), steps[1..]))
  }

  predicate Within(b: Balance) {
    b.reserved <= b.onHand
  }

  ghost predicate Bounded(s: System) {
    StockRuns.WithinOnHand(s.committed) && forall t <- s.active :: RowsWithin(s.active[t].delta)
  }

  ghost predicate RowsWithin(d: Delta) {
    forall k <- d.rows :: Within(d.rows[k])
  }

  lemma {:induction false} PostingKeepsWithin(cat: Catalogue, row: Balance, p: MovementRequest)
    requires cat.Valid() && PostOnRow(cat, row, p).Ok? && Within(row) && FitsRow(cat, row, p)
    ensures Within(PostOnRow(cat, row, p).value.balance)
  {
    var t := Tables(map[p.key := row], [], []);
    assert BalanceOf(t, p.key) == row && StockRuns.WithinOnHand(t);
    assert RecordMovement(cat, t, p).Ok? && Resolve(cat, p).Ok?;
    var t' := RecordMovement(cat, t, p).value;
    assert BalanceOf(t', p.key) == PostOnRow(cat, row, p).value.balance;
    hide RecordMovement, PostOnRow, Resolve, StockLimits.Taken, BalanceOf, StockRuns.WithinOnHand;
    StockLimits.MovementTouchesOne(cat, t, p, t');
    if DirectionOf(p.movementType) == Some(Out) { StockLimits.OutwardKeepsReserved(cat, t, p, t'); }
  }

  lemma {:induction false} EnoughIsEnough(available: Column, quantity: real)
    requires FromColumn(available) >= quantity
    ensures available >= ToColumn(quantity)
  {
    ToColumnMonotone(quantity, FromColumn(available));
    ColumnRoundTrip(available);
  }

  lemma {:induction false} WriteKeepsWithin(cat: Catalogue, c: Tables, tx: Tx)
    requires cat.Valid() && StockRuns.Reservable(c) && Sound(c, tx) && StockRuns.WithinOnHand(c) && RowsWithin(tx.delta)
    requires tx.todo != [] && tx.read.Some? && Written(cat, c, tx).Some?
    requires tx.todo[0].Book? ==> FitsRow(cat, tx.read.value, tx.todo[0].p)
    ensures RowsWithin(Written(cat, c, tx).value)
  {
    var k, d' := tx.todo[0].Row(), Written(cat, c, tx).value;
    SeenAgrees(c, tx, k);
    WrittenRow(cat, c, tx);
    assert Within(Seen(c, tx.delta, k));
    hide PostOnRow, SumActive, ToColumn, FromColumn, RowsAgree, Covered, Resolve, StockRuns.Reservable;
    match tx.todo[0]
    case Book(p) => PostingKeepsWithin(cat, tx.read.value, p);
    case Hold(_, quantity) =>
      EnoughIsEnough(Available(tx.read.value), quantity);
      assert SeenReservations(c, d') == SeenReservations(c, tx.delta) + [d'.held[|tx.delta.held|]];
      SumActiveAppend(SeenReservations(c, tx.delta), d'.held[|tx.delta.held|], k);
    case Free(_, _) =>
  }

  lemma {:induction false} MergeKeepsWithin(c: Tables, d: Delta)
    requires StockRuns.WithinOnHand(c) && RowsWithin(d)
    ensures StockRuns.WithinOnHand(Merge(c, d))
  {
    var c' := Merge(c, d);
    forall k ensures BalanceOf(c', k).reserved <= BalanceOf(c', k).onHand {
      assert BalanceOf(c, k).reserved <= BalanceOf(c, k).onHand;
      if k in d.rows { assert Within(d.rows[k]); }
    }
  }

  lemma {:induction false} StepKeepsBounded(cat: Catalogue, s: System, step: Step)
    requires cat.Valid() && Settled(s) && Bounded(s) && Fits(cat, s, step)
    ensures Bounded(Do(cat, s, step))
  {
    var s' := Do(cat, s, step);
    if s' != s {
      if step.Write? {
        WriteKeepsWithin(cat, s.committed, s.active[step.t]);
      } else if step.Commit? {
        MergeKeepsWithin(s.committed, s.active[step.t].delta);
      }
      hide Written, Sound, FitsRow;
      forall t <- s'.active ensures RowsWithin(s'.active[t].delta) {
        if t in s.active { assert RowsWithin(s.active[t].delta); }
      }
    }
  }

  lemma {:induction false} StepsKeepBounded(cat: Catalogue, s: System, steps: seq<Step>)
    requires cat.Valid() && Settled(s) && Bounded(s) && AlwaysOrderly(cat, s, steps) && AlwaysFits(cat, s, steps)
    ensures Bounded(Execute(cat, s, steps))
    decreases |steps|
  {
    hide Settled, Bounded, Do, Orderly, Fits;
    if steps != [] {
      if steps[0].Commit? { CommitKeeps(cat, s, steps[0].t); } else { StepKeeps(cat, s, steps[0]); }
      StepKeepsBounded(cat, s, steps[0]);
      StepsKeepBounded(cat, Do(cat, s, steps[0]), steps[1..]);
    }
  }

  /** However they interleave, no stock is promised twice: the active reservations of every key stay
    * within its quantity on hand, as long as outward movements take only what is available. */
  lemma {:induction false} NothingIsPromisedTwice(cat: Catalogue, start: Tables, steps: seq<Step>)
    requires cat.Valid() && StockRuns.Reservable(start) && StockRuns.WithinOnHand(start)
    requires AlwaysOrderly(cat, Start(start), steps) && AlwaysFits(cat, Start(start), steps)
    ensures var c := Execute(cat, Start(start), steps).committed;
            forall k :: SumActive(c.reservations, k) <= BalanceOf(c, k).onHand
  {
    StepsKeepSettled(cat, Start(start), steps);
    StepsKeepBounded(cat, Start(start), steps);
    var c := Execute(cat, Start(start), steps).committed;
    hide Execute, SumActive, BalanceOf;
    forall k ensures SumActive(c.reservations, k) <= BalanceOf(c, k).onHand {
      assert BalanceOf(c, k).reserved == SumActive(c.reservations, k);
    }
  }

  // ---------- One work on its own ----------

  /** What the work's own operation makes of the tables. */
  function Serially(cat: Catalogue, c: Tables, w: Work): Result<Tables, StockError>
    requires cat.Valid()
  {
    match w
    case Book(p) => RecordMovement(cat, c, p)
    case Hold(k, quantity) => Reserve(c, k, quantity)
    case Free(id, k) => ReleaseReservation(c, id, k)
  }

  /** The steps of a transaction of one work. */
  function Alone(t: Uuid, w: Work): seq<Step> {
    [Begin(t, [w])] + (if w.Free? then [ReleaseRow(t)] else []) + Rest(t)
  }

  function Rest(t: Uuid): seq<Step> {
    [GetForUpdate(t), Write(t), Commit(t)]
  }

  function Only(c: Tables, t: Uuid, tx: Tx): System {
    System(c, map[t := tx])
  }

  lemma {:induction false} ExecuteFirst(cat: Catalogue, s: System, step: Step, steps: seq<Step>)
    requires cat.Valid()
    ensures Execute(cat, s, [step] + steps) == Execute(cat, Do(cat, s, step), steps)
  {
    assert ([step] + steps)[1..] == steps;
    hide Do;
  }

  lemma {:induction false} ExecuteRest(cat: Catalogue, s: System, t: Uuid)
    requires cat.Valid()
    ensures Execute(cat, s, Rest(t)) == Do(cat, Do(cat, Do(cat, s, GetForUpdate(t)), Write(t)), Commit(t))
  {
    hide Do;
    assert Rest(t) == [GetForUpdate(t)] + ([Write(t)] + ([Commit(t)] + []));
    ExecuteFirst(cat, s, GetForUpdate(t), [Write(t)] + ([Commit(t)] + []));
    ExecuteFirst(cat, Do(cat, s, GetForUpdate(t)), Write(t), [Commit(t)] + []);
    ExecuteFirst(cat, Do(cat, Do(cat, s, GetForUpdate(t)), Write(t)), Commit(t), []);
  }

  lemma {:induction false} LocksWriteNothing(cat: Catalogue, c: Tables, tx: Tx, locks: set<Key>)
    requires cat.Valid() && tx.todo != [] && tx.read.Some?
    ensures Written(cat, c, tx.(locks := locks)) == Written(cat, c, tx)
  {
    hide PostOnRow, WithSum;
  }

  /** A work that can ask for its row reads it, and commits what it then writes. */
  lemma {:induction false} RestCommits(cat: Catalogue, c: Tables, t: Uuid, w: Work, tx: Tx)
    requires cat.Valid() && tx == Tx([w], tx.delta, {}, None, w.Free?) && tx.delta.rows == map[]
    requires w.Book? ==> Resolve(cat, w.p).Ok?
    ensures Execute(cat, Only(c, t, tx), Rest(t)).committed
            == match Written(cat, c, tx.(read := Some(BalanceOf(c, w.Row()))))
               case None => c
               case Some(d) => Merge(c, d)
  {
    ExecuteRest(cat, Only(c, t, tx), t);
    hide Written, Merge, Resolve, Execute;
    var s1 := Do(cat, Only(c, t, tx), GetForUpdate(t));
    LocksWriteNothing(cat, c, tx.(read := Some(BalanceOf(c, w.Row()))), s1.active[t].locks);
  }

  lemma {:induction false} BookAlone(cat: Catalogue, c: Tables, t: Uuid, p: MovementRequest)
    requires cat.Valid()
    ensures var done := RecordMovement(cat, c, p);
            Execute(cat, Only(c, t, Tx([Book(p)], NOTHING, {}, None, false)), Rest(t)).committed
            == if done.Ok? then done.value else c
  {
    var tx := Tx([Book(p)], NOTHING, {}, None, false);
    if Resolve(cat, p).Ok? {
      RestCommits(cat, c, t, Book(p), tx);
      hide Execute, Resolve, NewRow, NewMovement;
      var posted := PostOnRow(cat, BalanceOf(c, p.key), p);
      if posted.Ok? { MergeOne(c, p.key, posted.value.balance); }
    } else {
      ExecuteRest(cat, Only(c, t, tx), t);
    }
  }

  lemma {:induction false} MergeOne(c: Tables, k: Key, row: Balance)
    ensures AfterReleases(c.reservations, {}) == c.reservations
    ensures c.balances + map[][k := row] == c.balances[k := row]
  {
  }

  lemma {:induction false} HoldAlone(cat: Catalogue, c: Tables, t: Uuid, k: Key, quantity: real)
    requires cat.Valid()
    ensures var done := Reserve(c, k, quantity);
            Execute(cat, Only(c, t, Tx([Hold(k, quantity)], NOTHING, {}, None, false)), Rest(t)).committed
            == if done.Ok? then done.value else c
  {
    RestCommits(cat, c, t, Hold(k, quantity), Tx([Hold(k, quantity)], NOTHING, {}, None, false));
    hide Execute, SumActive, ToColumn, FromColumn, Available;
    var rs := c.reservations + [Reservation(k, ToColumn(quantity), Active)];
    MergeOne(c, k, BalanceOf(c, k).(reserved := SumActive(rs, k)));
    assert [] + [Reservation(k, ToColumn(quantity), Active)] == [Reservation(k, ToColumn(quantity), Active)];
  }

  lemma {:induction false} ReleaseFirst(cat: Catalogue, c: Tables, t: Uuid, id: int, k: Key)
    requires cat.Valid() && 0 <= id < |c.reservations| && c.reservations[id].status.Active?
    ensures Do(cat, Only(c, t, Tx([Free(id, k)], NOTHING, {}, None, false)), ReleaseRow(t))
            == Only(c, t, Tx([Free(id, k)], NOTHING.(freed := {id}), {}, None, true))
  {
    assert {} + {id} == {id};
    assert Untouched(Only(c, t, Tx([Free(id, k)], NOTHING, {}, None, false)), id);
  }

  lemma {:induction false} FreeAlone(cat: Catalogue, c: Tables, t: Uuid, id: int, k: Key)
    requires cat.Valid()
    ensures var done := ReleaseReservation(c, id, k);
            Execute(cat, Only(c, t, Tx([Free(id, k)], NOTHING, {}, None, false)), [ReleaseRow(t)] + Rest(t)).committed
            == if done.Ok? then done.value else c
  {
    var tx := Tx([Free(id, k)], NOTHING, {}, None, false);
    ExecuteFirst(cat, Only(c, t, tx), ReleaseRow(t), Rest(t));
    if ReleaseReservation(c, id, k).Ok? {
      var freed := tx.(released := true, delta := NOTHING.(freed := {id}));
      ReleaseFirst(cat, c, t, id, k);
      RestCommits(cat, c, t, Free(id, k), freed);
      hide Execute, SumActive, Do;
      var rs := c.reservations[id := c.reservations[id].(status := Released)];
      assert AfterReleases(c.reservations, {id}) + [] == rs;
      MergeOne(c, k, BalanceOf(c, k).(reserved := SumActive(rs, k)));
    } else {
      assert Do(cat, Only(c, t, tx), ReleaseRow(t)) == Only(c, t, tx);
      ExecuteRest(cat, Only(c, t, tx), t);
    }
  }

  /** Run alone, a transaction of one movement, reservation or release commits what its operation does to
    * the tables, and nothing if that fails. */
  lemma {:induction false} AloneIsSerial(cat: Catalogue, c: Tables, t: Uuid, w: Work)
    requires cat.Valid()
    ensures var done := Serially(cat, c, w);
            Execute(cat, Start(c), Alone(t, w)).committed == if done.Ok? then done.value else c
  {
    var rest := (if w.Free? then [ReleaseRow(t)] else []) + Rest(t);
    assert Alone(t, w) == [Begin(t, [w])] + rest;
    ExecuteFirst(cat, Start(c), Begin(t, [w]), rest);
    assert Do(cat, Start(c), Begin(t, [w])) == Only(c, t, Tx([w], NOTHING, {}, None, false));
    hide Execute, Do, RecordMovement, Reserve, ReleaseReservation;
    match w
    case Book(p) =>
      assert rest == Rest(t);
      BookAlone(cat, c, t, p);
    case Hold(k, quantity) =>
      assert rest == Rest(t);
      HoldAlone(cat, c, t, k, quantity);
    case Free(id, k) => FreeAlone(cat, c, t, id, k);
  }
}
