/** Transfers among concurrent stock transactions: what a commit does to the total over warehouses. */
module InterleavedTransfers {
  import opened Wrappers
  import opened Decimals
  import opened Stock
  import opened StockLaws
  import opened StockInterleaving
  import StockRuns

  /** The program of RecordTransfer. */
  predicate IsTransfer(ps: seq<MovementRequest>, p: TransferRequest) {
    p.from != p.to && ps == [OutLeg(p), InLeg(p)]
  }

  /** What a transfer's two legs round apart, counted against each other. */
  predicate LegsRoundAlike(cat: Catalogue, t: Tables, p: TransferRequest)
    requires cat.Valid() && Resolve(cat, OutLeg(p)).Ok?
  {
    var factor := Resolve(cat, OutLeg(p)).value;
    RoundsApart(BalanceOf(t, OutLeg(p).key), OutLeg(p), factor)
    <==> RoundsApart(BalanceOf(t, InLeg(p).key), InLeg(p), factor)
  }

  function PairTotal(t: Tables, p: TransferRequest): Column {
    BalanceOf(t, OutLeg(p).key).onHand + BalanceOf(t, InLeg(p).key).onHand
  }

  lemma {:induction false} TransferResolves(cat: Catalogue, t: Tables, p: TransferRequest)
    requires cat.Valid() && RecordTransfer(cat, t, p).Ok?
    ensures Resolve(cat, OutLeg(p)).Ok?
  {
  }

  /** Whatever other transactions are doing, the commit of a transfer leaves the total of its two
    * warehouses unchanged exactly when its legs round alike on the rows as they are committed then. */
  lemma {:induction false} CommittedTransferTotal(cat: Catalogue, start: Tables, s: System, t: Uuid, p: TransferRequest)
    requires cat.Valid() && Serialised(cat, start, s) && t in s.active && IsTransfer(s.active[t].done, p)
    requires Do(cat, s, Commit(t)) != s
    ensures Resolve(cat, OutLeg(p)).Ok?
    ensures PairTotal(Do(cat, s, Commit(t)).committed, p) == PairTotal(s.committed, p)
            <==> LegsRoundAlike(cat, s.committed, p)
  {
    var tx, s' := s.active[t], Do(cat, s, Commit(t));
    assert Isolated(cat, s, t);
    AloneIsSerial(cat, s.committed, tx.done);
    assert s'.committed == Merge(s.committed, tx.delta);
    assert RecordTransfer(cat, s.committed, p) == Ok(s'.committed);
    TransferResolves(cat, s.committed, p);
    hide RecordTransfer, Resolve, RoundsApart, BalanceOf;
    TransferTotal(cat, s.committed, p, s'.committed);
  }

  // ---------- Schedules of transfers ----------

  function TotalOnHand(t: Tables, ks: seq<Key>): Column {
    if ks == [] then 0 else TotalOnHand(t, ks[..|ks| - 1]) + BalanceOf(t, ks[|ks| - 1]).onHand
  }

  /** Moving d between two rows changes a list's total by what of it enters or leaves the list. */
  lemma {:induction false} TotalShift(t: Tables, t': Tables, ks: seq<Key>, a: Key, b: Key, d: Column)
    requires NoDuplicates(ks) && a != b
    requires forall k | k != a && k != b :: BalanceOf(t', k).onHand == BalanceOf(t, k).onHand
    requires BalanceOf(t', a).onHand == BalanceOf(t, a).onHand - d
             && BalanceOf(t', b).onHand == BalanceOf(t, b).onHand + d
    ensures TotalOnHand(t', ks) == TotalOnHand(t, ks) - (if a in ks then d else 0) + (if b in ks then d else 0)
    decreases |ks|
  {
    if ks != [] {
      var front, k := ks[..|ks| - 1], ks[|ks| - 1];
      TotalShift(t, t', front, a, b, d);
      assert k !in front;
      assert forall x :: x in ks <==> x in front || x == k;
    }
  }

  /** A transfer whose quantity is not half-way between two storable ones. */
  predicate UntiedTransfer(cat: Catalogue, ps: seq<MovementRequest>, p: TransferRequest)
    requires cat.Valid()
  {
    IsTransfer(ps, p) && StockRuns.Untied(cat, OutLeg(p))
  }

  /** The list holds both rows of the transfer or neither. */
  predicate BothOrNeither(ks: seq<Key>, p: TransferRequest) {
    OutLeg(p).key in ks <==> InLeg(p).key in ks
  }

  lemma {:induction false} UntiedTransferShifts(cat: Catalogue, t: Tables, p: TransferRequest, t': Tables, ks: seq<Key>)
    requires cat.Valid() && RecordTransfer(cat, t, p) == Ok(t') && StockRuns.Untied(cat, OutLeg(p))
    requires NoDuplicates(ks) && BothOrNeither(ks, p)
    ensures TotalOnHand(t', ks) == TotalOnHand(t, ks)
  {
    TransferTotal(cat, t, p, t');
    UntiedLegs(cat, t, p);
    hide RecordTransfer, Resolve, RoundsApart, BalanceOf;
    var a, b := OutLeg(p).key, InLeg(p).key;
    TotalShift(t, t', ks, a, b, BalanceOf(t, a).onHand - BalanceOf(t', a).onHand);
  }

  lemma {:induction false} UntiedLegs(cat: Catalogue, t: Tables, p: TransferRequest)
    requires cat.Valid() && RecordTransfer(cat, t, p).Ok? && StockRuns.Untied(cat, OutLeg(p))
    ensures OutLeg(p).key != InLeg(p).key
    ensures var factor := Resolve(cat, OutLeg(p)).value;
      !RoundsApart(BalanceOf(t, OutLeg(p).key), OutLeg(p), factor)
          && !RoundsApart(BalanceOf(t, InLeg(p).key), InLeg(p), factor)
  {
    TransferResolves(cat, t, p);
    LegsConvertAlike(cat, p);
  }

  lemma {:induction false} SerialTransfersKeepTotal(cat: Catalogue, t: Tables, history: seq<seq<MovementRequest>>,
                                                    t': Tables, ks: seq<Key>)
    requires cat.Valid() && Serial(cat, t, history) == Ok(t') && NoDuplicates(ks)
    requires forall ps <- history :: exists p :: UntiedTransfer(cat, ps, p) && BothOrNeither(ks, p)
    ensures TotalOnHand(t', ks) == TotalOnHand(t, ks)
    decreases |history|
  {
    if history != [] {
      var front, ps := history[..|history| - 1], Last(history);
      assert ps in history && forall qs <- front :: qs in history;
      var before := Serial(cat, t, front).value;
      SerialTransfersKeepTotal(cat, t, front, before, ks);
      var p :| UntiedTransfer(cat, ps, p) && BothOrNeither(ks, p);
      assert RecordTransfer(cat, before, p) == Ok(t');
      UntiedTransferShifts(cat, before, p, t', ks);
    }
  }

  /** However untied transfers interleave on existing rows, the total on hand over any list of rows
    * that no transfer crosses the edge of stays what it was. */
  lemma {:induction false} InterleavedTransfersKeepTotal(cat: Catalogue, start: Tables, steps: seq<Step>, ks: seq<Key>)
    requires cat.Valid() && AlwaysFindsRow(cat, Start(start), steps) && NoDuplicates(ks)
    requires forall ps <- Execute(cat, Start(start), steps).history :: exists p
             :: UntiedTransfer(cat, ps, p) && BothOrNeither(ks, p)
    ensures TotalOnHand(Execute(cat, Start(start), steps).committed, ks) == TotalOnHand(start, ks)
  {
    var s := Execute(cat, Start(start), steps);
    InterleavingsAreSerial(cat, start, steps);
    SerialTransfersKeepTotal(cat, start, s.history, s.committed, ks);
  }
}
