/** Concurrent stock transactions, step by step: GetForUpdate takes the row lock and opening,
  * Upsert writes under it, and commit or rollback lets every lock go. */
module StockInterleaving {
  import opened Wrappers
  import opened Decimals
  import opened Stock
  import opened StockLaws
  import StockRuns

  /** What a transaction has written and not yet committed. */
  datatype Delta = Delta(rows: map<Key, Balance>, entries: seq<Movement>)

  /** A running transaction: the rows it has locked, and the row answered by its last GetForUpdate. */
  datatype Tx = Tx(todo: seq<MovementRequest>, done: seq<MovementRequest>, delta: Delta, locks: set<Key>,
                   read: Option<Balance>)

  /** `history` lists the committed programs in commit order. */
  datatype System = System(committed: Tables, active: map<Uuid, Tx>, history: seq<seq<MovementRequest>>)

  datatype Step = Begin(t: Uuid, ps: seq<MovementRequest>) | GetForUpdate(t: Uuid) | Write(t: Uuid) | Commit(t: Uuid)
      | Rollback(t: Uuid)

  /** The row a transaction sees: its own write, or the committed one. */
  function Seen(committed: Tables, d: Delta, k: Key): Balance {
    if k in d.rows then d.rows[k] else BalanceOf(committed, k)
  }

  predicate RowExists(s: System, tx: Tx, k: Key) {
    k in tx.delta.rows || k in s.committed.balances
  }

  /** Nobody else holds the lock of row k. */
  predicate Free(s: System, t: Uuid, k: Key) {
    forall u <- s.active | u != t :: k !in s.active[u].locks
  }

  function With(s: System, t: Uuid, tx: Tx): System {
    s.(active := s.active[t := tx])
  }

  /** Committing makes the transaction's writes visible. */
  function Merge(t: Tables, d: Delta): Tables {
    t.(balances := t.balances + d.rows, movements := t.movements + d.entries)
  }

  /** One scheduled step; a step that is not possible or must wait changes nothing. */
  function Do(cat: Catalogue, s: System, step: Step): System
    requires cat.Valid()
  {
    var t := step.t;
    if step.Begin? then
      if t in s.active then s else With(s, t, Tx(step.ps, [], Delta(map[], []), {}, None))
    else if t !in s.active then s
    else
      var tx := s.active[t];
      match step
      case GetForUpdate(_) =>
        // the unit is converted before the row is asked for
        if tx.todo == [] || tx.read.Some? || Resolve(cat, tx.todo[0]).Err? then s
        else
          var k := tx.todo[0].key;
          // a row that does not exist leaves nothing to lock
          if !RowExists(s, tx, k) then With(s, t, tx.(read := Some(NO_BALANCE)))
          else if !Free(s, t, k) then s
          else With(s, t, tx.(read := Some(Seen(s.committed, tx.delta, k)), locks := tx.locks + {k}))
      case Write(_) =>
        if tx.todo == [] || tx.read.None? || !Free(s, t, tx.todo[0].key) then s
        else
          var p := tx.todo[0];
          var posted := PostOnRow(cat, tx.read.value, p);
          if posted.Err? then s
          else
            var delta := Delta(tx.delta.rows[p.key := posted.value.balance],
                               tx.delta.entries + [posted.value.movement]);
            With(s, t, Tx(tx.todo[1..], tx.done + [p], delta, tx.locks + {p.key}, None))
      case Commit(_) =>
        if tx.todo != [] || tx.read.Some? then s
        else System(Merge(s.committed, tx.delta), s.active - {t}, s.history + [tx.done])
      case Rollback(_) =>
        System(s.committed, s.active - {t}, s.history)
  }

  function Execute(cat: Catalogue, s: System, steps: seq<Step>): System
    requires cat.Valid()
    decreases |steps|
  {
    if steps == [] then s else Execute(cat, Do(cat, s, steps[0]), steps[1..])
  }

  function Start(t: Tables): System {
    System(t, map[], [])
  }

  /** The step does not look for a row that is not there. */
  predicate FindsRow(cat: Catalogue, s: System, step: Step)
    requires cat.Valid()
  {
    step.GetForUpdate? && step.t in s.active && s.active[step.t].todo != [] ==>
      var p := s.active[step.t].todo[0];
      Resolve(cat, p).Ok? ==> RowExists(s, s.active[step.t], p.key)
  }

  predicate AlwaysFindsRow(cat: Catalogue, s: System, steps: seq<Step>)
    requires cat.Valid()
    decreases |steps|
  {
    steps == [] || (FindsRow(cat, s, steps[0]) && AlwaysFindsRow(cat, Do(cat, s, steps[0]), steps[1..]))
  }

  // ---------- One transaction on its own ----------

  /** The writes of a program run alone on the committed tables. */
  function Alone(cat: Catalogue, committed: Tables, ps: seq<MovementRequest>): Result<Delta, StockError>
    requires cat.Valid()
  {
    if ps == [] then Ok(Delta(map[], []))
    else match Alone(cat, committed, ps[..|ps| - 1])
         case Err(e) => Err(e)
         case Ok(d) =>
           match PostOnRow(cat, Seen(committed, d, Last(ps).key), Last(ps))
           case Err(e) => Err(e)
           case Ok(posted) => Ok(Delta(d.rows[Last(ps).key := posted.balance], d.entries + [posted.movement]))
  }

  lemma {:induction false} AloneKeys(cat: Catalogue, committed: Tables, ps: seq<MovementRequest>)
    requires cat.Valid() && Alone(cat, committed, ps).Ok?
    ensures forall p <- ps :: p.key in Alone(cat, committed, ps).value.rows
    decreases |ps|
  {
    if ps != [] {
      AloneKeys(cat, committed, ps[..|ps| - 1]);
      assert forall p <- ps :: p in ps[..|ps| - 1] || p == Last(ps);
    }
  }

  /** A program's writes depend only on the rows it touches. */
  lemma {:induction false} AloneFrame(cat: Catalogue, before: Tables, after: Tables, ps: seq<MovementRequest>)
    requires cat.Valid() && forall p <- ps :: BalanceOf(before, p.key) == BalanceOf(after, p.key)
    ensures Alone(cat, before, ps) == Alone(cat, after, ps)
    decreases |ps|
  {
    if ps != [] {
      AloneFrame(cat, before, after, ps[..|ps| - 1]);
      assert Last(ps) in ps;
    }
  }

  lemma {:induction false} RecordAllAppend(cat: Catalogue, t: Tables, ps: seq<MovementRequest>,
                                           qs: seq<MovementRequest>)
    requires cat.Valid()
    ensures RecordAll(cat, t, ps + qs)
            == match RecordAll(cat, t, ps) case Err(e) => Err(e) case Ok(t') => RecordAll(cat, t', qs)
    decreases |ps|
  {
    if ps == [] {
      assert ps + qs == qs;
    } else {
      assert (ps + qs)[1..] == ps[1..] + qs;
      var next := RecordMovement(cat, t, ps[0]);
      if next.Ok? { RecordAllAppend(cat, next.value, ps[1..], qs); }
    }
  }

  /** Running a program alone and merging its writes is running it serially. */
  lemma {:induction false} AloneIsSerial(cat: Catalogue, committed: Tables, ps: seq<MovementRequest>)
    requires cat.Valid()
    ensures RecordAll(cat, committed, ps)
            == match Alone(cat, committed, ps) case Err(e) => Err(e) case Ok(d) => Ok(Merge(committed, d))
    decreases |ps|
  {
    if ps == [] {
      assert Merge(committed, Delta(map[], [])) == committed;
    } else {
      var front, p := ps[..|ps| - 1], Last(ps);
      AloneIsSerial(cat, committed, front);
      RecordAllAppend(cat, committed, front, [p]);
      assert front + [p] == ps;
      var d := Alone(cat, committed, front);
      if d.Ok? {
        RecordOne(cat, Merge(committed, d.value), p);
        MergePost(cat, committed, d.value, p);
      }
    }
  }

  lemma {:induction false} MergePost(cat: Catalogue, committed: Tables, d: Delta, p: MovementRequest)
    requires cat.Valid()
    ensures RecordMovement(cat, Merge(committed, d), p)
            == match PostOnRow(cat, Seen(committed, d, p.key), p)
               case Err(e) => Err(e)
               case Ok(posted) => Ok(Merge(committed,
                                           Delta(d.rows[p.key := posted.balance], d.entries + [posted.movement])))
  {
    var t := Merge(committed, d);
    assert BalanceOf(t, p.key) == Seen(committed, d, p.key);
    match PostOnRow(cat, Seen(committed, d, p.key), p)
    case Err(_) =>
    case Ok(posted) =>
      assert t.balances[p.key := posted.balance] == committed.balances + d.rows[p.key := posted.balance];
      assert t.movements + [posted.movement] == committed.movements + (d.entries + [posted.movement]);
  }

  // ---------- All transactions together ----------

  /** The committed programs, one after another. */
  function Serial(cat: Catalogue, t: Tables, history: seq<seq<MovementRequest>>): Result<Tables, StockError>
    requires cat.Valid()
  {
    if history == [] then Ok(t)
    else match Serial(cat, t, history[..|history| - 1])
         case Err(e) => Err(e)
         case Ok(t') => RecordAll(cat, t', Last(history))
  }

  /** A running transaction holds the lock of every row it wrote or read, and has written what
    * it would have written had it run alone on the tables as they are now. */
  ghost predicate Isolated(cat: Catalogue, s: System, t: Uuid)
    requires cat.Valid() && t in s.active
  {
    var tx := s.active[t];
    && Alone(cat, s.committed, tx.done) == Ok(tx.delta)
    && tx.delta.rows.Keys <= tx.locks
    && (tx.read.Some? ==> tx.todo != [] && tx.todo[0].key in tx.locks
                          && tx.read.value == Seen(s.committed, tx.delta, tx.todo[0].key))
  }

  ghost predicate LocksExclusive(s: System) {
    forall t <- s.active, u <- s.active | t != u :: s.active[t].locks !! s.active[u].locks
  }

  ghost predicate Serialised(cat: Catalogue, start: Tables, s: System)
    requires cat.Valid()
  {
    && Serial(cat, start, s.history) == Ok(s.committed)
    && LocksExclusive(s)
    && forall t <- s.active :: Isolated(cat, s, t)
  }

  lemma {:induction false} ReadOrWriteKeeps(cat: Catalogue, start: Tables, s: System, step: Step)
    requires cat.Valid() && Serialised(cat, start, s) && FindsRow(cat, s, step) && !step.Commit? && !step.Rollback?
    ensures Serialised(cat, start, Do(cat, s, step))
  {
    var s' := Do(cat, s, step);
    forall t <- s'.active ensures Isolated(cat, s', t) {
      if t in s.active {
        assert Isolated(cat, s, t);
        if t == step.t && step.Write? && s' != s { WriteKeeps(cat, s, step.t); }
      }
    }
  }

  lemma {:induction false} WriteKeeps(cat: Catalogue, s: System, t: Uuid)
    requires cat.Valid() && t in s.active && Isolated(cat, s, t) && Do(cat, s, Write(t)) != s
    ensures Isolated(cat, Do(cat, s, Write(t)), t)
  {
    var tx := s.active[t];
    var p := tx.todo[0];
    assert (tx.done + [p])[..|tx.done|] == tx.done;
    assert Last(tx.done + [p]) == p;
  }

  lemma {:induction false} CommitKeeps(cat: Catalogue, start: Tables, s: System, t: Uuid)
    requires cat.Valid() && Serialised(cat, start, s)
    ensures Serialised(cat, start, Do(cat, s, Commit(t)))
  {
    var s' := Do(cat, s, Commit(t));
    if s' != s {
      var tx := s.active[t];
      assert Isolated(cat, s, t);
      AloneIsSerial(cat, s.committed, tx.done);
      assert s'.history[..|s.history|] == s.history;
      forall u <- s'.active ensures Isolated(cat, s', u) { CommitKeepsOther(cat, start, s, t, u); }
    }
  }

  /** A commit writes no row that another transaction has locked. */
  lemma {:induction false} CommitKeepsOther(cat: Catalogue, start: Tables, s: System, t: Uuid, u: Uuid)
    requires cat.Valid() && Serialised(cat, start, s)
    requires var s' := Do(cat, s, Commit(t)); s' != s && u in s'.active
    ensures Isolated(cat, Do(cat, s, Commit(t)), u)
  {
    assert Isolated(cat, s, u) && Isolated(cat, s, t);
    var other := s.active[u];
    AloneKeys(cat, s.committed, other.done);
    AloneFrame(cat, s.committed, Do(cat, s, Commit(t)).committed, other.done);
  }

  lemma {:induction false} RollbackKeeps(cat: Catalogue, start: Tables, s: System, t: Uuid)
    requires cat.Valid() && Serialised(cat, start, s)
    ensures Serialised(cat, start, Do(cat, s, Rollback(t)))
  {
    var s' := Do(cat, s, Rollback(t));
    forall u <- s'.active ensures Isolated(cat, s', u) {
      assert Isolated(cat, s, u);
    }
  }

  lemma {:induction false} StepsKeepSerialised(cat: Catalogue, start: Tables, s: System, steps: seq<Step>)
    requires cat.Valid() && Serialised(cat, start, s) && AlwaysFindsRow(cat, s, steps)
    ensures Serialised(cat, start, Execute(cat, s, steps))
    decreases |steps|
  {
    if steps != [] {
      match steps[0] {
        case Commit(t) => CommitKeeps(cat, start, s, t);
        case Rollback(t) => RollbackKeeps(cat, start, s, t);
        case _ => ReadOrWriteKeeps(cat, start, s, steps[0]);
      }
      StepsKeepSerialised(cat, start, Do(cat, s, steps[0]), steps[1..]);
    }
  }

  /** For every schedule that only asks for existing rows, the committed tables are those of the
    * committed programs run one at a time in commit order.  Since each row stays locked until
    * commit, this is also the order in which any one row was locked. */
  lemma {:induction false} InterleavingsAreSerial(cat: Catalogue, start: Tables, steps: seq<Step>)
    requires cat.Valid() && AlwaysFindsRow(cat, Start(start), steps)
    ensures var s := Execute(cat, Start(start), steps); Serial(cat, start, s.history) == Ok(s.committed)
  {
    StepsKeepSerialised(cat, start, Start(start), steps);
  }

  // ---------- What this gives the stock ----------

  function Flatten(history: seq<seq<MovementRequest>>): seq<MovementRequest> {
    if history == [] then [] else Flatten(history[..|history| - 1]) + Last(history)
  }

  lemma {:induction false} SerialIsRecordAll(cat: Catalogue, t: Tables, history: seq<seq<MovementRequest>>)
    requires cat.Valid()
    ensures RecordAll(cat, t, Flatten(history)) == Serial(cat, t, history)
    decreases |history|
  {
    if history != [] {
      var front := history[..|history| - 1];
      SerialIsRecordAll(cat, t, front);
      RecordAllAppend(cat, t, Flatten(front), Last(history));
    }
  }

  lemma {:induction false} FlattenHolds(history: seq<seq<MovementRequest>>, p: MovementRequest)
    requires p in Flatten(history)
    ensures exists ps <- history :: p in ps
    decreases |history|
  {
    if p in Last(history) {
      assert Last(history) in history;
    } else {
      FlattenHolds(history[..|history| - 1], p);
    }
  }

  /** However the transactions interleave, stock stays non-negative where the policy forbids it,
    * and if the committed movements are untied each on-hand quantity is the signed sum of the
    * committed ledger. */
  lemma {:induction false} InterleavingsKeepStock(cat: Catalogue, start: Tables, steps: seq<Step>)
    requires cat.Valid() && AlwaysFindsRow(cat, Start(start), steps)
    ensures var s := Execute(cat, Start(start), steps);
      && (StockRuns.NeverNegative(cat, start) ==> StockRuns.NeverNegative(cat, s.committed))
      && (StockRuns.CacheAgrees(start) && (forall ps <- s.history :: forall p <- ps :: StockRuns.Untied(cat, p))
          ==> StockRuns.CacheAgrees(s.committed))
  {
    var s := Execute(cat, Start(start), steps);
    InterleavingsAreSerial(cat, start, steps);
    SerialIsRecordAll(cat, start, s.history);
    var ps := Flatten(s.history);
    StockRuns.RecordAllLeads(cat, start, ps);
    var ws := StockRuns.Bookings(ps);
    if StockRuns.NeverNegative(cat, start) { StockRuns.WritesNeverNegative(cat, start, ws, s.committed); }
    if StockRuns.CacheAgrees(start) && (forall ps <- s.history :: forall p <- ps :: StockRuns.Untied(cat, p)) {
      forall w <- ws | w.Booked? ensures StockRuns.Untied(cat, w.p) { FlattenHolds(s.history, w.p); }
      StockRuns.WritesKeepCache(cat, start, ws, s.committed);
    }
  }
}
