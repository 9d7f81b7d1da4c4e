/** Every sequential run of the poller, with duplicate enqueues, retries, provider failures and
  * transactions that fail to commit. */
module EInvoiceRuns {
  import opened Wrappers
  import opened Outbox
  import opened EInvoice

  datatype Op =
    | Add(kind: string, key: Key, payload: Payload, now: Time)
    | Poll(outside: Outside)

  function Next(handlers: set<string>, s: State, op: Op): State {
    match op
    case Add(kind, key, payload, now) => s.(events := Enqueue(s.events, kind, key, payload, now))
    case Poll(o) => Process(handlers, s, o)
  }

  function Run(handlers: set<string>, s: State, ops: seq<Op>): State
    decreases |ops|
  {
    if ops == [] then s else Run(handlers, Next(handlers, s, ops[0]), ops[1..])
  }

  const EMPTY := State([], [], [])

  // ---------- What one attempt does ----------

  /** What submitting makes of a record. */
  function Submitted(r: Record, o: Outside): Record {
    if o.request.Err? then Updated(r, FailedFinal, Fields(None, None, Some(o.request.error)))
    else
      match Reply(o.attempt)
      case Err(error) => Updated(r, FailedRetryable, Fields(None, None, Some(error)))
      case Ok(response) => Updated(r, Generated, Fields(Some(response.irn), Some(response.ackNumber), None))
  }

  /** The call it makes, if the request could be built. */
  function Asked(doc: Uuid, o: Outside): seq<Call> {
    if o.request.Err? then [] else [Call(doc, o.attempt)]
  }

  predicate Idle(s: State, doc: Uuid) {
    var found := FindRecord(s.records, doc);
    found.Some? && Terminal(s.records[found.value].status)
  }

  /** The position of the document's record, and the records with a fresh one if it had none. */
  function Slot(rs: seq<Record>, doc: Uuid): (r: (seq<Record>, nat))
    ensures r.1 < |r.0| && rs <= r.0 && r.0[r.1].doc == doc
    ensures r.1 < |rs| ==> r.0 == rs
    ensures r.1 >= |rs| ==>
              && r.1 == |rs| && r.0 == rs + [Record(doc, Queued, None, None, None)]
              && forall x <- rs :: x.doc != doc
  {
    var found := FindRecord(rs, doc);
    if found.Some? then (rs, found.value) else (rs + [Record(doc, Queued, None, None, None)], |rs|)
  }

  lemma {:induction false} GenerateEffect(s: State, doc: Uuid, o: Outside)
    ensures var s' := Generate(s, doc, o).0;
            var (rs, id) := Slot(s.records, doc);
      && s'.calls == s.calls + (if Idle(s, doc) then [] else Asked(doc, o))
      && s'.records == if Idle(s, doc) then s.records else rs[id := Submitted(rs[id], o)]
  {
  }

  // ---------- Partial updates ----------

  datatype Change = Change(status: RecordStatus, fields: Fields)

  function Changed(r: Record, cs: seq<Change>): Record {
    if cs == [] then r else var c := cs[|cs| - 1]; Updated(Changed(r, cs[..|cs| - 1]), c.status, c.fields)
  }

  /** However many partial updates a record goes through, its IRN is the one it had, or the one brought
    * by the latest update that carries any: update i - 1 if none from i on does. */
  lemma {:induction false} IrnIsTheLatest(r: Record, cs: seq<Change>, i: nat)
    requires i <= |cs| && forall j | i <= j < |cs| :: cs[j].fields.irn.None?
    ensures i == 0 ==> Changed(r, cs).irn == r.irn
    ensures i > 0 && cs[i - 1].fields.irn.Some? ==> Changed(r, cs).irn == cs[i - 1].fields.irn
    decreases |cs|
  {
    if i < |cs| { IrnIsTheLatest(r, cs[..|cs| - 1], i); }
  }

  /** No update resets an IRN or moves a record, and the status is the last one set. */
  lemma {:induction false} IrnNeverReset(r: Record, cs: seq<Change>)
    ensures r.irn.Some? ==> Changed(r, cs).irn.Some?
    ensures Changed(r, cs).doc == r.doc && (cs != [] ==> Changed(r, cs).status == cs[|cs| - 1].status)
    decreases |cs|
  {
    if cs != [] { IrnNeverReset(r, cs[..|cs| - 1]); }
  }

  // ---------- Records over every run ----------

  predicate SoundRecord(r: Record) {
    && (r.status.Generated? || r.status.FailedRetryable? || r.status.FailedFinal?)
    && (r.status.Generated? <==> r.irn.Some?)
  }

  /** What every committed state satisfies: one record per document, none of them queued or being
    * submitted, and an IRN exactly on the generated ones. */
  predicate Sound(rs: seq<Record>) {
    && (forall i, j | 0 <= i < j < |rs| :: rs[i].doc != rs[j].doc)
    && (forall i | 0 <= i < |rs| :: SoundRecord(rs[i]))
  }

  /** Records are never removed or moved to another document, and a terminal one never changes. */
  predicate Preserved(before: seq<Record>, after: seq<Record>) {
    && |before| <= |after|
    && forall i | 0 <= i < |before| ::
         && after[i].doc == before[i].doc
         && (Terminal(before[i].status) ==> after[i] == before[i])
  }

  lemma {:induction false} GenerateKeepsRecords(s: State, doc: Uuid, o: Outside)
    requires Sound(s.records)
    ensures var s' := Generate(s, doc, o).0; Sound(s'.records) && Preserved(s.records, s'.records)
  {
    GenerateEffect(s, doc, o);
    if !Idle(s, doc) {
      var (rs, id) := Slot(s.records, doc);
      assert rs[id].irn.None?;
      assert SoundRecord(Submitted(rs[id], o));
    }
  }

  lemma {:induction false} PreservedTransitive(a: seq<Record>, b: seq<Record>, c: seq<Record>)
    requires Preserved(a, b) && Preserved(b, c)
    ensures Preserved(a, c)
  {
  }

  /** The document whose record a step works on, if it is about one. */
  function Target(handlers: set<string>, s: State, o: Outside): Option<Uuid> {
    var next := FindNext(s.events, o.now);
    if next.Some? && GENERATE in handlers && s.events[next.value].kind == GENERATE
        && s.events[next.value].payload.DocumentId?
    then Some(s.events[next.value].payload.id) else None
  }

  /** A step leaves records and calls alone, or runs GenerateForDocument for its target, whose records
    * a failed commit takes back. */
  lemma {:induction false} ProcessEffect(handlers: set<string>, s: State, o: Outside)
    ensures var s', doc := Process(handlers, s, o), Target(handlers, s, o);
      && s'.calls == (if doc.Some? then Generate(s, doc.value, o).0.calls else s.calls)
      && s'.records == (if doc.Some? && o.commits then Generate(s, doc.value, o).0.records else s.records)
  {
    var next := FindNext(s.events, o.now);
    if next.Some? && Target(handlers, s, o).Some? {
      var doc := s.events[next.value].payload.id;
      GenerateEffect(s, doc, o);
      GenerateEffect(WithEvent(s, next.value, Claimed(s.events[next.value])), doc, o);
    }
  }

  lemma {:induction false} StepKeepsRecords(handlers: set<string>, s: State, op: Op)
    requires Sound(s.records)
    ensures Sound(Next(handlers, s, op).records) && Preserved(s.records, Next(handlers, s, op).records)
  {
    if op.Poll? {
      ProcessEffect(handlers, s, op.outside);
      var doc := Target(handlers, s, op.outside);
      if doc.Some? { GenerateKeepsRecords(s, doc.value, op.outside); }
    }
  }

  /** In every run each document has at most one record, no committed record is queued or being
    * submitted, a generated record carries its IRN and never changes again, nor does any other
    * terminal one. */
  lemma {:induction false} RecordsStaySound(handlers: set<string>, s: State, ops: seq<Op>)
    requires Sound(s.records)
    ensures Sound(Run(handlers, s, ops).records) && Preserved(s.records, Run(handlers, s, ops).records)
    decreases |ops|
  {
    if ops != [] {
      var s' := Next(handlers, s, ops[0]);
      StepKeepsRecords(handlers, s, ops[0]);
      RecordsStaySound(handlers, s', ops[1..]);
      PreservedTransitive(s.records, s'.records, Run(handlers, s', ops[1..]).records);
    }
  }

  // ---------- Calls to the provider ----------

  function CallsFor(calls: seq<Call>, doc: Uuid): seq<Call>
    decreases |calls|
  {
    if calls == [] then []
    else CallsFor(calls[..|calls| - 1], doc) + if calls[|calls| - 1].doc == doc then [calls[|calls| - 1]] else []
  }

  lemma {:induction false} CallsForAppend(calls: seq<Call>, c: Call, doc: Uuid)
    ensures CallsFor(calls + [c], doc) == CallsFor(calls, doc) + if c.doc == doc then [c] else []
  {
    assert (calls + [c])[..|calls|] == calls;
  }

  lemma {:induction false} StepCalls(handlers: set<string>, s: State, o: Outside, doc: Uuid)
    ensures var s', target := Process(handlers, s, o), Target(handlers, s, o);
            CallsFor(s'.calls, doc) == CallsFor(s.calls, doc) +
                if target == Some(doc) && !Idle(s, doc) then Asked(doc, o) else []
  {
    ProcessEffect(handlers, s, o);
    var target := Target(handlers, s, o);
    if target.Some? {
      GenerateEffect(s, target.value, o);
      if o.request.Ok? && !Idle(s, target.value) {
        CallsForAppend(s.calls, Call(target.value, o.attempt), doc);
      }
    }
  }

  /** Once a document's record is terminal, no run asks the provider about it again. */
  lemma {:induction false} TerminalIsLeftAlone(handlers: set<string>, s: State, ops: seq<Op>, id: nat)
    requires Sound(s.records) && id < |s.records|
    requires s.records[id].status in {Generated, FailedFinal, Cancelled}
    ensures var s' := Run(handlers, s, ops);
      && id < |s'.records| && s'.records[id] == s.records[id]
      && CallsFor(s'.calls, s.records[id].doc) == CallsFor(s.calls, s.records[id].doc)
    decreases |ops|
  {
    if ops != [] {
      var doc := s.records[id].doc;
      assert Idle(s, doc) by {
        var found := FindRecord(s.records, doc);
        assert s.records[id] in s.records;
      }
      StepKeepsRecords(handlers, s, ops[0]);
      if ops[0].Poll? { StepCalls(handlers, s, ops[0].outside, doc); }
      TerminalIsLeftAlone(handlers, Next(handlers, s, ops[0]), ops[1..], id);
    }
  }

  // ---------- At most one invoice per document ----------

  /** How many invoices the provider issued. */
  function Issued(calls: seq<Call>): nat {
    if calls == [] then 0 else Issued(calls[..|calls| - 1]) + if Issues(calls[|calls| - 1].attempt) then 1 else 0
  }

  /** Nothing was asked after an answer. */
  predicate OnlyLastAnswered(calls: seq<Call>) {
    forall i | 0 <= i < |calls| - 1 :: !calls[i].attempt.Answered?
  }

  /** No call that issued came after one whose answer was lost. */
  predicate NoIssueAfterLoss(calls: seq<Call>) {
    forall i, j | 0 <= i < j < |calls| && calls[i].attempt.Lost? :: !Issues(calls[j].attempt)
  }

  predicate EndsAnswered(calls: seq<Call>) {
    calls != [] && calls[|calls| - 1].attempt.Answered?
  }

  predicate Asks(e: Event, doc: Uuid) {
    e.kind == GENERATE && e.payload == DocumentId(doc)
  }

  /** Requests are queued under their document's key, as the sales module queues them. */
  predicate Keyed(op: Op) {
    op.Add? && op.kind == GENERATE && op.payload.DocumentId? ==> op.key == GenerateKey(op.payload.id)
  }

  /** Keys are unique, and a request stands under its document's key. */
  predicate Queue(es: seq<Event>) {
    && (forall i, j | 0 <= i < j < |es| :: es[i].key != es[j].key)
    && (forall i | 0 <= i < |es| && es[i].kind == GENERATE && es[i].payload.DocumentId?
          :: es[i].key == GenerateKey(es[i].payload.id))
  }

  /** The document's request was claimed and never marked. */
  predicate StuckAt(es: seq<Event>, doc: Uuid, i: nat) {
    i < |es| && Asks(es[i], doc) && es[i].status == Processing
  }

  predicate Stuck(es: seq<Event>, doc: Uuid) {
    exists i | 0 <= i < |es| :: StuckAt(es, doc, i)
  }

  predicate HasInvoice(rs: seq<Record>, doc: Uuid) {
    exists i | 0 <= i < |rs| :: rs[i].doc == doc && rs[i].status.Generated?
  }

  /** At most the last call was answered, and if it was the document has its invoice or its request can
    * never be claimed again. */
  predicate OnceFor(s: State, doc: Uuid) {
    var calls := CallsFor(s.calls, doc);
    OnlyLastAnswered(calls) && (EndsAnswered(calls) ==> HasInvoice(s.records, doc) || Stuck(s.events, doc))
  }

  lemma {:induction false} EnqueueKeepsQueue(es: seq<Event>, kind: string, key: Key, payload: Payload, now: Time)
    requires Queue(es) && (kind == GENERATE && payload.DocumentId? ==> key == GenerateKey(payload.id))
    ensures Queue(Enqueue(es, kind, key, payload, now))
  {
    forall i | 0 <= i < |es| && !HasKey(es, key) ensures es[i].key != key {
      assert es[i] in es;
    }
  }

  lemma {:induction false} HandleKeepsQueue(handlers: set<string>, s: State, e: Event, o: Outside)
    requires Queue(s.events)
    ensures Queue(Handle(handlers, s, e, o).0.events)
  {
    assert |"einvoice.failed"| != |GENERATE| && |"einvoice.generated"| != |GENERATE|;
    if e.kind in handlers && e.kind == GENERATE && e.payload.DocumentId? {
      var doc := e.payload.id;
      var id := Slot(s.records, doc).1;
      EnqueueKeepsQueue(s.events, "einvoice.failed", WebhookKey("einvoice.failed", id), DocumentId(doc), o.now);
      EnqueueKeepsQueue(s.events, "einvoice.generated", WebhookKey("einvoice.generated", id), DocumentId(doc), o.now);
    }
  }

  /** A step changes no event but the claimed one, whose request it keeps, and leaves that one
    * processing if it does not commit. */
  lemma {:induction false} ProcessEvents(handlers: set<string>, s: State, o: Outside)
    requires Queue(s.events) && FindNext(s.events, o.now).Some?
    ensures var es, n := Process(handlers, s, o).events, FindNext(s.events, o.now).value;
      && Queue(es) && |s.events| <= |es|
      && (forall i | 0 <= i < |s.events| && i != n :: es[i] == s.events[i])
      && es[n].kind == s.events[n].kind && es[n].payload == s.events[n].payload
      && (!o.commits ==> es[n].status == Processing)
  {
    var n := FindNext(s.events, o.now).value;
    var claimed := WithEvent(s, n, Claimed(s.events[n]));
    HandleKeepsQueue(handlers, claimed, claimed.events[n], o);
  }

  /** The document a step targets was not stuck: its only request was claimable. */
  lemma {:induction false} TargetNotStuck(handlers: set<string>, s: State, o: Outside, doc: Uuid)
    requires Queue(s.events) && Target(handlers, s, o) == Some(doc)
    ensures !Stuck(s.events, doc)
  {
    var n := FindNext(s.events, o.now).value;
    forall i | 0 <= i < |s.events| ensures !StuckAt(s.events, doc, i) {
      assert i == n || s.events[i].key != s.events[n].key;
    }
  }

  /** After asking, the document has its invoice or its request is stuck. */
  lemma {:induction false} AskedOutcome(handlers: set<string>, s: State, o: Outside, doc: Uuid)
    requires Queue(s.events) && Target(handlers, s, o) == Some(doc) && !Idle(s, doc) && o.request.Ok?
             && o.attempt.Answered?
    ensures var s' := Process(handlers, s, o); HasInvoice(s'.records, doc) || Stuck(s'.events, doc)
  {
    var n, s' := FindNext(s.events, o.now).value, Process(handlers, s, o);
    ProcessEvents(handlers, s, o);
    ProcessEffect(handlers, s, o);
    GenerateEffect(s, doc, o);
    if o.commits {
      var (rs, id) := Slot(s.records, doc);
      assert s'.records[id] == Submitted(rs[id], o);
    } else {
      assert StuckAt(s'.events, doc, n);
    }
  }

  /** The step that asks the provider about a document leaves it invoiced or its request stuck. */
  lemma {:induction false} AskingStep(handlers: set<string>, s: State, o: Outside, doc: Uuid)
    requires Queue(s.events) && Sound(s.records) && OnceFor(s, doc) && Target(handlers, s, o) == Some(doc)
    ensures OnceFor(Process(handlers, s, o), doc)
  {
    TargetNotStuck(handlers, s, o, doc);
    StepKeepsRecords(handlers, s, Poll(o));
    InvoiceStays(s.records, Process(handlers, s, o).records, doc);
    StepCalls(handlers, s, o, doc);
    if HasInvoice(s.records, doc) { InvoicedIsIdle(s, doc); }
    if !Idle(s, doc) && o.request.Ok? && o.attempt.Answered? { AskedOutcome(handlers, s, o, doc); }
  }

  lemma {:induction false} IssuedAppend(calls: seq<Call>, c: Call)
    ensures Issued(calls + [c]) == Issued(calls) + if Issues(c.attempt) then 1 else 0
  {
    assert (calls + [c])[..|calls|] == calls;
  }

  lemma {:induction false} NothingIssued(calls: seq<Call>)
    requires forall i | 0 <= i < |calls| :: !calls[i].attempt.Answered?
    ensures Issued(calls) == 0 <==> forall i | 0 <= i < |calls| :: !calls[i].attempt.Lost?
  {
    if calls != [] {
      NothingIssued(calls[..|calls| - 1]);
      assert Issues(calls[|calls| - 1].attempt) <==> calls[|calls| - 1].attempt.Lost?;
    }
  }

  /** Where only the last call can have been answered, more than one invoice means a lost answer. */
  lemma {:induction false} TwoIssuedMeansLoss(calls: seq<Call>)
    requires OnlyLastAnswered(calls)
    ensures Issued(calls) <= 1 <==> NoIssueAfterLoss(calls)
  {
    if calls != [] {
      var n := |calls| - 1;
      var front := calls[..n];
      TwoIssuedMeansLoss(front);
      NothingIssued(front);
      if Issued(front) == 0 {
        assert NoIssueAfterLoss(calls);
      } else {
        var i :| 0 <= i < n && front[i].attempt.Lost?;
        assert NoIssueAfterLoss(calls) ==> !Issues(calls[n].attempt) by { assert calls[i].attempt.Lost?; }
        assert NoIssueAfterLoss(calls) <==> NoIssueAfterLoss(front) && !Issues(calls[n].attempt);
      }
    }
  }

  lemma {:induction false} InvoiceStays(before: seq<Record>, after: seq<Record>, doc: Uuid)
    requires Preserved(before, after)
    ensures HasInvoice(before, doc) ==> HasInvoice(after, doc)
  {
    if HasInvoice(before, doc) {
      var i :| 0 <= i < |before| && before[i].doc == doc && before[i].status.Generated?;
      assert after[i] == before[i];
    }
  }

  lemma {:induction false} InvoicedIsIdle(s: State, doc: Uuid)
    requires Sound(s.records) && HasInvoice(s.records, doc)
    ensures Idle(s, doc)
  {
    var i :| 0 <= i < |s.records| && s.records[i].doc == doc && s.records[i].status.Generated?;
    assert s.records[i] in s.records;
    assert FindRecord(s.records, doc) == Some(i);
  }

  /** A request that is processing is not claimed, so it stays as it is. */
  lemma {:induction false} StuckStays(handlers: set<string>, s: State, op: Op, doc: Uuid)
    requires Queue(s.events) && Stuck(s.events, doc)
    ensures Stuck(Next(handlers, s, op).events, doc)
  {
    if op.Poll? && FindNext(s.events, op.outside.now).Some? { ProcessEvents(handlers, s, op.outside); }
    var i :| 0 <= i < |s.events| && StuckAt(s.events, doc, i);
    assert StuckAt(Next(handlers, s, op).events, doc, i);
  }

  /** A step about anything else leaves the document's standing alone. */
  lemma {:induction false} OtherStep(handlers: set<string>, s: State, op: Op, doc: Uuid)
    requires Queue(s.events) && Sound(s.records) && OnceFor(s, doc)
    requires op.Poll? ==> Target(handlers, s, op.outside) != Some(doc)
    ensures OnceFor(Next(handlers, s, op), doc)
  {
    StepKeepsRecords(handlers, s, op);
    InvoiceStays(s.records, Next(handlers, s, op).records, doc);
    if op.Poll? { StepCalls(handlers, s, op.outside, doc); }
    if Stuck(s.events, doc) { StuckStays(handlers, s, op, doc); }
    assert CallsFor(Next(handlers, s, op).calls, doc) == CallsFor(s.calls, doc);
  }

  lemma {:induction false} StepOnce(handlers: set<string>, s: State, op: Op, doc: Uuid)
    requires Queue(s.events) && Sound(s.records) && OnceFor(s, doc) && Keyed(op)
    ensures Queue(Next(handlers, s, op).events) && OnceFor(Next(handlers, s, op), doc)
  {
    if op.Poll? {
      if FindNext(s.events, op.outside.now).Some? { ProcessEvents(handlers, s, op.outside); }
    } else {
      EnqueueKeepsQueue(s.events, op.kind, op.key, op.payload, op.now);
    }
    if op.Poll? && Target(handlers, s, op.outside) == Some(doc) {
      AskingStep(handlers, s, op.outside, doc);
    } else {
      OtherStep(handlers, s, op, doc);
    }
  }

  lemma {:induction false} OnceOverRuns(handlers: set<string>, s: State, ops: seq<Op>, doc: Uuid)
    requires Queue(s.events) && Sound(s.records) && OnceFor(s, doc) && forall op <- ops :: Keyed(op)
    ensures OnceFor(Run(handlers, s, ops), doc)
    decreases |ops|
  {
    if ops != [] {
      assert Keyed(ops[0]);
      StepOnce(handlers, s, ops[0], doc);
      StepKeepsRecords(handlers, s, ops[0]);
      OnceOverRuns(handlers, Next(handlers, s, ops[0]), ops[1..], doc);
    }
  }

  /** Over every run from empty tables, however often requests are queued again under their document's
    * key, answers fail or commits are lost: nothing is asked about a document after an answer, and the
    * provider issues at most one invoice for it exactly if no issuing call follows a lost answer. */
  lemma {:induction false} AtMostOneInvoice(handlers: set<string>, ops: seq<Op>, doc: Uuid)
    requires forall op <- ops :: Keyed(op)
    ensures var calls := CallsFor(Run(handlers, EMPTY, ops).calls, doc);
            OnlyLastAnswered(calls) && (Issued(calls) <= 1 <==> NoIssueAfterLoss(calls))
  {
    OnceOverRuns(handlers, EMPTY, ops, doc);
    TwoIssuedMeansLoss(CallsFor(Run(handlers, EMPTY, ops).calls, doc));
  }

  predicate LosesNothing(op: Op) {
    op.Poll? ==> !op.outside.attempt.Lost?
  }

  predicate NoneLost(calls: seq<Call>) {
    forall i | 0 <= i < |calls| :: !calls[i].attempt.Lost?
  }

  lemma {:induction false} StepLosesNothing(handlers: set<string>, s: State, op: Op, doc: Uuid)
    requires LosesNothing(op) && NoneLost(CallsFor(s.calls, doc))
    ensures NoneLost(CallsFor(Next(handlers, s, op).calls, doc))
  {
    if op.Poll? { StepCalls(handlers, s, op.outside, doc); }
  }

  lemma {:induction false} RunLosesNothing(handlers: set<string>, s: State, ops: seq<Op>, doc: Uuid)
    requires NoneLost(CallsFor(s.calls, doc)) && forall op <- ops :: LosesNothing(op)
    ensures NoneLost(CallsFor(Run(handlers, s, ops).calls, doc))
    decreases |ops|
  {
    if ops != [] {
      assert LosesNothing(ops[0]);
      StepLosesNothing(handlers, s, ops[0], doc);
      RunLosesNothing(handlers, Next(handlers, s, ops[0]), ops[1..], doc);
    }
  }

  /** In particular at most one if no answer is ever lost. */
  lemma {:induction false} AtMostOneWithoutLoss(handlers: set<string>, ops: seq<Op>, doc: Uuid)
    requires forall op <- ops :: Keyed(op) && LosesNothing(op)
    ensures Issued(CallsFor(Run(handlers, EMPTY, ops).calls, doc)) <= 1
  {
    AtMostOneInvoice(handlers, ops, doc);
    RunLosesNothing(handlers, EMPTY, ops, doc);
  }

  /** Once an invoice was issued and its answer lost, the retry issues a second exactly if it issues at
    * all: nothing in the record or the event tells the two cases apart. */
  lemma {:induction false} RetryIssuesAgain(handlers: set<string>, s: State, o: Outside, doc: Uuid)
    requires Target(handlers, s, o) == Some(doc) && !Idle(s, doc) && o.request.Ok?
             && Issued(CallsFor(s.calls, doc)) == 1
    ensures Issued(CallsFor(Process(handlers, s, o).calls, doc)) == 2 <==> Issues(o.attempt)
  {
    StepCalls(handlers, s, o, doc);
    IssuedAppend(CallsFor(s.calls, doc), Call(doc, o.attempt));
  }

  function Sent(now: Time, a: Attempt, commits: bool): Outside {
    Outside(now, Ok(()), a, None, commits)
  }

  /** One step on the n-th request of a sale without a record. */
  lemma {:induction false} FirstAttempt(s: State, n: nat, doc: Uuid, now: Time, a: Attempt, commits: bool)
    requires s.records == [] && n < |s.events| && Asks(s.events[n], doc) && IsNext(s.events, now, n)
    ensures var s' := Process({GENERATE}, s, Sent(now, a, commits));
      && s'.calls == s.calls + [Call(doc, a)]
      && (commits ==> s'.records == [Submitted(Record(doc, Queued, None, None, None), Sent(now, a, commits))])
      && (!commits ==> s'.records == [] && s'.events == s.events[n := Claimed(s.events[n])])
  {
    NextIsUnique(s.events, now, n);
    ProcessEffect({GENERATE}, s, Sent(now, a, commits));
    GenerateEffect(s, doc, Sent(now, a, commits));
  }

  /** One request, one key, and a time-out after the provider issued: a minute later it issues again,
    * and the record shows only the second invoice. */
  lemma {:induction false} LostAnswerIssuesTwice(doc: Uuid, error: string, second: Response)
    ensures var ops := [Add(GENERATE, GenerateKey(doc), DocumentId(doc), 0), Poll(Sent(0, Lost(error), true)),
                        Poll(Sent(MINUTE, Answered(second), true))];
            var s := Run({GENERATE}, EMPTY, ops);
      && (forall op <- ops :: Keyed(op))
      && s.calls == [Call(doc, Lost(error)), Call(doc, Answered(second))] && Issued(s.calls) == 2
      && |s.records| == 1 && s.records[0].status.Generated? && s.records[0].irn == Some(second.irn)
  {
    var queued := Add(GENERATE, GenerateKey(doc), DocumentId(doc), 0);
    var lost, kept := Sent(0, Lost(error), true), Sent(MINUTE, Answered(second), true);
    var s1 := Next({GENERATE}, EMPTY, queued);
    assert s1 == QueuedFor(doc);
    assert Keyed(queued) && Keyed(Poll(lost)) && Keyed(Poll(kept));
    RunOfThree({GENERATE}, EMPTY, queued, Poll(lost), Poll(kept));
    hide Process, FindNext, Idle, Asks, Run, Keyed, Issued;
    LostAttempt(s1, doc, error);
    var s2 := Process({GENERATE}, s1, lost);
    RetryAnswered(s2, doc, second);
    IssuedOfTwo(Call(doc, Lost(error)), Call(doc, Answered(second)));
  }

  /** The tables once a first request is queued. */
  function QueuedFor(doc: Uuid): State {
    State([Event(GENERATE, GenerateKey(doc), DocumentId(doc), Outbox.Pending, 0, 0)], [], [])
  }

  /** A first attempt whose answer is lost leaves a record to retry, and its event due a minute later. */
  lemma {:induction false} LostAttempt(s: State, doc: Uuid, error: string)
    requires s == QueuedFor(doc)
    ensures var s' := Process({GENERATE}, s, Sent(0, Lost(error), true));
      && s'.calls == [Call(doc, Lost(error))] && !Idle(s', doc)
      && |s'.records| == 1 && s'.records[0].doc == doc
      && |s'.events| == 1 && Asks(s'.events[0], doc) && FindNext(s'.events, MINUTE) == Some(0)
  {
    FirstAttempt(s, 0, doc, 0, Lost(error), true);
    RetryableEvent(s, doc, Sent(0, Lost(error), true));
    hide Process, FindNext;
    assert [] + [Call(doc, Lost(error))] == [Call(doc, Lost(error))];
  }

  lemma {:induction false} IssuedOfTwo(a: Call, b: Call)
    ensures Issued([a, b]) == (if Issues(a.attempt) then 1 else 0) + (if Issues(b.attempt) then 1 else 0)
  {
    IssuedAppend([], a);
    IssuedAppend([a], b);
    assert [] + [a] == [a] && [a] + [b] == [a, b];
  }

  /** The retry of the only request for a sale whose record is not terminal. */
  lemma {:induction false} RetryAnswered(s: State, doc: Uuid, second: Response)
    requires |s.events| == 1 && Asks(s.events[0], doc) && FindNext(s.events, MINUTE) == Some(0)
    requires |s.records| == 1 && s.records[0].doc == doc && !Idle(s, doc)
    ensures var s' := Process({GENERATE}, s, Sent(MINUTE, Answered(second), true));
      && s'.calls == s.calls + [Call(doc, Answered(second))]
      && |s'.records| == 1 && s'.records[0].status.Generated? && s'.records[0].irn == Some(second.irn)
  {
    ProcessEffect({GENERATE}, s, Sent(MINUTE, Answered(second), true));
    GenerateEffect(s, doc, Sent(MINUTE, Answered(second), true));
  }

  /** The event of a committed failed attempt is due again a minute later. */
  lemma {:induction false} RetryableEvent(s: State, doc: Uuid, o: Outside)
    requires s == State([Event(GENERATE, GenerateKey(doc), DocumentId(doc), Outbox.Pending, 0, 0)], [], [])
    requires o.now == 0 && o.commits && o.request.Ok? && o.attempt.Lost?
    ensures var s' := Process({GENERATE}, s, o);
            s'.events == [Event(GENERATE, GenerateKey(doc), DocumentId(doc), Outbox.Failed, 1, MINUTE)]
            && FindNext(s'.events, MINUTE) == Some(0)
  {
    NextIsUnique(s.events, 0, 0);
    var s' := Process({GENERATE}, s, o);
    assert Delay(1) == MINUTE by { assert Pow2(0) == 1; }
    NextIsUnique(s'.events, MINUTE, 0);
  }

  /** Under a second key the same request could be issued twice even so: the first invoice is lost with
    * its transaction, the second is recorded. */
  lemma {:induction false} SecondKeyIssuesAgain(doc: Uuid, first: Response, second: Response)
    ensures var ops := [Add(GENERATE, GenerateKey(doc), DocumentId(doc), 0),
                        Add(GENERATE, Key("resend:", doc), DocumentId(doc), 0),
                        Poll(Sent(0, Answered(first), false)), Poll(Sent(0, Answered(second), true))];
            var s := Run({GENERATE}, EMPTY, ops);
      && s.calls == [Call(doc, Answered(first)), Call(doc, Answered(second))]
      && |s.records| == 1 && s.records[0].irn == Some(second.irn)
  {
    var one, two := Add(GENERATE, GenerateKey(doc), DocumentId(doc), 0),
        Add(GENERATE, Key("resend:", doc), DocumentId(doc), 0);
    assert |GenerateKey(doc).prefix| != |"resend:"|;
    var s1 := Next({GENERATE}, EMPTY, one);
    var s2 := Next({GENERATE}, s1, two);
    assert !HasKey(s1.events, two.key);
    FirstAttempt(s2, 0, doc, 0, Answered(first), false);
    var s3 := Process({GENERATE}, s2, Sent(0, Answered(first), false));
    FirstAttempt(s3, 1, doc, 0, Answered(second), true);
    assert s3.calls == [Call(doc, Answered(first))];
    assert Process({GENERATE}, s3, Sent(0, Answered(second), true)).calls
        == [Call(doc, Answered(first)), Call(doc, Answered(second))];
    RunOfThree({GENERATE}, s1, two, Poll(Sent(0, Answered(first), false)), Poll(Sent(0, Answered(second), true)));
    var rest := [two, Poll(Sent(0, Answered(first), false)), Poll(Sent(0, Answered(second), true))];
    assert ([one] + rest)[1..] == rest;
    assert Run({GENERATE}, EMPTY, [one] + rest) == Run({GENERATE}, s1, rest);
    assert [one] + rest == [one, two, Poll(Sent(0, Answered(first), false)), Poll(Sent(0, Answered(second), true))];
  }

  lemma {:induction false} RunOfThree(hs: set<string>, s: State, a: Op, b: Op, c: Op)
    ensures Run(hs, s, [a, b, c]) == Next(hs, Next(hs, Next(hs, s, a), b), c)
  {
    var s1 := Next(hs, s, a);
    var s2 := Next(hs, s1, b);
    assert [a, b, c][1..] == [b, c] && [b, c][1..] == [c] && [c][1..] == [];
    assert Run(hs, s, [a, b, c]) == Run(hs, s1, [b, c]) == Run(hs, s2, [c]);
    assert Run(hs, s2, [c]) == Run(hs, Next(hs, s2, c), []) == Next(hs, s2, c);
  }

  // ---------- The recorded invoice is the issued one ----------

  predicate IssuedAs(calls: seq<Call>, r: Record) {
    exists c <- calls :: c.doc == r.doc && c.attempt.Answered?
                         && r.irn == Some(c.attempt.response.irn) && r.ackNumber == Some(c.attempt.response.ackNumber)
  }

  /** Every generated record carries an IRN and acknowledgement that the provider issued for its document. */
  predicate Backed(s: State) {
    forall i | 0 <= i < |s.records| && s.records[i].status.Generated? :: IssuedAs(s.calls, s.records[i])
  }

  lemma {:induction false} StepKeepsBacked(handlers: set<string>, s: State, op: Op)
    requires Sound(s.records) && Backed(s)
    ensures Backed(Next(handlers, s, op))
  {
    var s' := Next(handlers, s, op);
    if op.Poll? {
      var o, target := op.outside, Target(handlers, s, op.outside);
      ProcessEffect(handlers, s, o);
      if target.Some? { GenerateEffect(s, target.value, o); }
      assert forall c <- s.calls :: c in s'.calls;
      forall i | 0 <= i < |s'.records| && s'.records[i].status.Generated? ensures IssuedAs(s'.calls, s'.records[i]) {
        if i < |s.records| && s'.records[i] == s.records[i] {
          assert IssuedAs(s.calls, s.records[i]);
        } else {
          assert Call(target.value, o.attempt) in s'.calls;
        }
      }
    }
  }

  lemma {:induction false} RecordedInvoicesWereIssued(handlers: set<string>, s: State, ops: seq<Op>)
    requires Sound(s.records) && Backed(s)
    ensures Backed(Run(handlers, s, ops))
    decreases |ops|
  {
    if ops != [] {
      StepKeepsBacked(handlers, s, ops[0]);
      StepKeepsRecords(handlers, s, ops[0]);
      RecordedInvoicesWereIssued(handlers, Next(handlers, s, ops[0]), ops[1..]);
    }
  }

  // ---------- What is announced ----------

  /** The events by which a record's two outcomes are announced. */
  function GeneratedKey(record: nat): Key {
    Key("webhook-source:einvoice.generated:", record)
  }

  function FailedKey(record: nat): Key {
    Key("webhook-source:einvoice.failed:", record)
  }

  /** An event under the key, of the kind and about the document. */
  predicate Announces(es: seq<Event>, key: Key, kind: string, doc: Uuid) {
    exists i | 0 <= i < |es| :: es[i].key == key && es[i].kind == kind && es[i].payload == DocumentId(doc)
  }

  predicate AnnouncedAt(s: State, i: nat) {
    && (HasKey(s.events, GeneratedKey(i)) <==> i < |s.records| && s.records[i].status == Generated)
    && (HasKey(s.events, FailedKey(i)) <==> i < |s.records| && s.records[i].status == FailedFinal)
    && (HasKey(s.events, GeneratedKey(i)) ==>
          Announces(s.events, GeneratedKey(i), "einvoice.generated", s.records[i].doc))
    && (HasKey(s.events, FailedKey(i)) ==> Announces(s.events, FailedKey(i), "einvoice.failed", s.records[i].doc))
  }

  /** Every generated record has been announced as such, every finally failed one too, and no other. */
  ghost predicate Announced(s: State) {
    forall i: nat :: AnnouncedAt(s, i)
  }

  /** Nobody else queues under the announcements' keys. */
  predicate LeavesAnnouncements(op: Op) {
    op.Add? ==>
      op.key.prefix != "webhook-source:einvoice.generated:" && op.key.prefix != "webhook-source:einvoice.failed:"
  }

  lemma {:induction false} EnqueueHasKey(es: seq<Event>, kind: string, key: Key, payload: Payload, now: Time, k: Key)
    ensures var es' := Enqueue(es, kind, key, payload, now);
      && (HasKey(es', k) <==> HasKey(es, k) || k == key)
      && (!HasKey(es, key) && payload.DocumentId? ==> Announces(es', key, kind, payload.id))
  {
    var es' := Enqueue(es, kind, key, payload, now);
    if !HasKey(es, key) {
      assert es'[|es|].key == key && es'[|es|] in es';
      assert forall e <- es :: e in es';
      assert forall e <- es' :: e in es || e == es'[|es|];
    }
  }

  /** The same events, whatever their status. */
  predicate SameEvents(es: seq<Event>, es': seq<Event>) {
    |es| == |es'| && forall i | 0 <= i < |es| ::
      es'[i].key == es[i].key && es'[i].kind == es[i].kind && es'[i].payload == es[i].payload
  }

  lemma {:induction false} SameEventsHaveKey(es: seq<Event>, es': seq<Event>, k: Key)
    requires SameEvents(es, es')
    ensures HasKey(es', k) <==> HasKey(es, k)
  {
    if HasKey(es, k) {
      var i :| 0 <= i < |es| && es[i].key == k;
      assert es'[i] in es';
    }
    if HasKey(es', k) {
      var i :| 0 <= i < |es'| && es'[i].key == k;
      assert es[i] in es;
    }
  }

  lemma {:induction false} SameEventsAnnounce(s: State, s': State)
    requires Announced(s) && SameEvents(s.events, s'.events) && s'.records == s.records
    ensures Announced(s')
  {
    forall i: nat ensures AnnouncedAt(s', i) {
      assert AnnouncedAt(s, i);
      SameEventsHaveKey(s.events, s'.events, GeneratedKey(i));
      SameEventsHaveKey(s.events, s'.events, FailedKey(i));
      if HasKey(s.events, GeneratedKey(i)) {
        PrefixAnnounces(s.events, s'.events, GeneratedKey(i), "einvoice.generated", s.records[i].doc);
      }
      if HasKey(s.events, FailedKey(i)) {
        PrefixAnnounces(s.events, s'.events, FailedKey(i), "einvoice.failed", s.records[i].doc);
      }
    }
  }

  lemma {:induction false} PrefixAnnounces(es: seq<Event>, es': seq<Event>, key: Key, kind: string, doc: Uuid)
    requires Announces(es, key, kind, doc) && |es| <= |es'|
    requires forall i | 0 <= i < |es|
             :: es'[i].key == es[i].key && es'[i].kind == es[i].kind && es'[i].payload == es[i].payload
    ensures Announces(es', key, kind, doc)
  {
    var i :| 0 <= i < |es| && es[i].key == key && es[i].kind == kind && es[i].payload == DocumentId(doc);
    assert es'[i].key == key;
  }

  /** The event one attempt adds: the outcome of a record that was generated or failed for good. */
  lemma {:induction false} GenerateAnnounces(s: State, doc: Uuid, o: Outside)
    ensures var s' := Generate(s, doc, o).0;
            var id := Slot(s.records, doc).1;
            s'.events == if Idle(s, doc) then s.events
                         else if o.request.Err? then Enqueue(s.events, "einvoice.failed", FailedKey(id),
                                                             DocumentId(doc), o.now)
                         else if o.attempt.Answered?
                         then Enqueue(s.events, "einvoice.generated", GeneratedKey(id), DocumentId(doc), o.now)
                         else s.events
  {
    assert "webhook-source:" + "einvoice.failed" + ":" == "webhook-source:einvoice.failed:";
    assert "webhook-source:" + "einvoice.generated" + ":" == "webhook-source:einvoice.generated:";
  }

  /** Queueing under another key announces nothing more and nothing less. */
  lemma {:induction false} EnqueueAnnounces(s: State, kind: string, key: Key, payload: Payload, now: Time)
    requires Announced(s) && key.prefix != GeneratedKey(0).prefix && key.prefix != FailedKey(0).prefix
    ensures Announced(s.(events := Enqueue(s.events, kind, key, payload, now)))
  {
    var s' := s.(events := Enqueue(s.events, kind, key, payload, now));
    forall i: nat ensures AnnouncedAt(s', i) {
      assert AnnouncedAt(s, i);
      KeepsOthers(s, s', i, kind, key, payload, now);
    }
  }

  /** A record that keeps its document and status is announced as before, under keys other than the new one. */
  lemma {:induction false} KeepsOthers(s: State, s': State, i: nat, kind: string, key: Key, payload: Payload, now: Time)
    requires AnnouncedAt(s, i) && key != GeneratedKey(i) && key != FailedKey(i)
    requires s'.events == Enqueue(s.events, kind, key, payload, now)
    requires if i < |s.records|
             then i < |s'.records| && s'.records[i].doc == s.records[i].doc
                 && s'.records[i].status == s.records[i].status
             else i >= |s'.records|
    ensures AnnouncedAt(s', i)
  {
    EnqueueHasKey(s.events, kind, key, payload, now, GeneratedKey(i));
    EnqueueHasKey(s.events, kind, key, payload, now, FailedKey(i));
    if HasKey(s.events, GeneratedKey(i)) {
      PrefixAnnounces(s.events, s'.events, GeneratedKey(i), "einvoice.generated", s.records[i].doc);
    }
    if HasKey(s.events, FailedKey(i)) {
      PrefixAnnounces(s.events, s'.events, FailedKey(i), "einvoice.failed", s.records[i].doc);
    }
  }

  /** The record an attempt works on is announced with its new status. */
  lemma {:induction false} AnnouncesOwn(s: State, s': State, i: nat, kind: string, key: Key, now: Time)
    requires AnnouncedAt(s, i) && (i < |s.records| ==> s.records[i].status == FailedRetryable) && i < |s'.records|
    requires s'.events == Enqueue(s.events, kind, key, DocumentId(s'.records[i].doc), now)
    requires || (s'.records[i].status == Generated && kind == "einvoice.generated" && key == GeneratedKey(i))
             || (s'.records[i].status == FailedFinal && kind == "einvoice.failed" && key == FailedKey(i))
    ensures AnnouncedAt(s', i)
  {
    assert GeneratedKey(i).prefix[24] != FailedKey(i).prefix[24];
    EnqueueHasKey(s.events, kind, key, DocumentId(s'.records[i].doc), now, GeneratedKey(i));
    EnqueueHasKey(s.events, kind, key, DocumentId(s'.records[i].doc), now, FailedKey(i));
  }

  lemma {:induction false} GenerateKeepsAnnounced(s: State, doc: Uuid, o: Outside)
    requires Sound(s.records) && Announced(s)
    ensures Announced(Generate(s, doc, o).0)
  {
    GenerateEffect(s, doc, o);
    GenerateAnnounces(s, doc, o);
    var s' := Generate(s, doc, o).0;
    var (rs, id) := Slot(s.records, doc);
    hide Generate, HasKey, Announces, Enqueue;
    if !Idle(s, doc) {
      var kind := if o.request.Err? then "einvoice.failed" else "einvoice.generated";
      var key := if o.request.Err? then FailedKey(id) else GeneratedKey(id);
      forall i: nat ensures AnnouncedAt(s', i) {
        assert AnnouncedAt(s, i);
        if o.request.Err? || o.attempt.Answered? {
          if i == id {
            AnnouncesOwn(s, s', i, kind, key, o.now);
          } else {
            KeepsOthers(s, s', i, kind, key, DocumentId(doc), o.now);
          }
        }
      }
    } else {
      SameEventsAnnounce(s, s');
    }
  }

  lemma {:induction false} ProcessKeepsAnnounced(handlers: set<string>, s: State, o: Outside)
    requires Sound(s.records) && Announced(s)
    ensures Announced(Process(handlers, s, o))
  {
    var next := FindNext(s.events, o.now);
    if next.Some? {
      var n := next.value;
      var claimed := WithEvent(s, n, Claimed(s.events[n]));
      SameEventsAnnounce(s, claimed);
      var e := claimed.events[n];
      if e.kind in handlers && e.kind == GENERATE && e.payload.DocumentId? {
        GenerateKeepsAnnounced(claimed, e.payload.id, o);
      }
      var after := Handle(handlers, claimed, e, o).0;
      SameEventsAnnounce(after, Handled(handlers, claimed, n, o));
      SameEventsAnnounce(claimed, claimed.(calls := Handled(handlers, claimed, n, o).calls));
    }
  }

  /** Over every run in which nobody else uses the announcements' keys, exactly the generated records have
    * been announced as generated and exactly the finally failed ones as failed, each with its document. */
  lemma {:induction false} OutcomesAreAnnounced(handlers: set<string>, s: State, ops: seq<Op>)
    requires Sound(s.records) && Announced(s) && forall op <- ops :: LeavesAnnouncements(op)
    ensures Announced(Run(handlers, s, ops))
    decreases |ops|
  {
    if ops != [] {
      assert LeavesAnnouncements(ops[0]);
      StepKeepsRecords(handlers, s, ops[0]);
      if ops[0].Poll? {
        ProcessKeepsAnnounced(handlers, s, ops[0].outside);
      } else {
        EnqueueAnnounces(s, ops[0].kind, ops[0].key, ops[0].payload, ops[0].now);
      }
      OutcomesAreAnnounced(handlers, Next(handlers, s, ops[0]), ops[1..]);
    }
  }

  // ---------- What becomes of an event ----------

  predicate FailedUntil(e: Event, time: Time) {
    e.status == Outbox.Failed && e.nextAttemptAt == time
  }

  /** A committed poll counts one more attempt on the event it claims.  Without a handler, after a lost
    * answer or a refusal, or when its handler says so, the event is retried after the next delay; if it
    * cannot be decoded or its request cannot be built it rests for a hundred years of nanoseconds; if
    * the record is left alone or an invoice comes back it is done. */
  lemma {:induction false} EventAfterPoll(handlers: set<string>, s: State, o: Outside, n: nat)
    requires IsNext(s.events, o.now, n) && o.commits
    ensures var e, s' := s.events[n], Process(handlers, s, o);
            var later, never := o.now + Delay(e.attempts + 1), o.now + 3153600000000000000;
      && n < |s'.events|
      && var e' := s'.events[n];
         && e' == e.(status := e'.status, attempts := e.attempts + 1, nextAttemptAt := e'.nextAttemptAt)
         && (e.kind !in handlers ==> FailedUntil(e', later))
         && (e.kind in handlers && e.kind != GENERATE ==>
               match o.other
               case None => e'.status == Outbox.Done
               case Some(Retryable) => FailedUntil(e', later)
               case Some(Permanent) => FailedUntil(e', never))
         && (e.kind in handlers && e.kind == GENERATE ==>
               match e.payload
               case Malformed => FailedUntil(e', never)
               case DocumentId(doc) =>
                 if Idle(s, doc) then e'.status == Outbox.Done
                 else if o.request.Err? then FailedUntil(e', never)
                 else if o.attempt.Answered? then e'.status == Outbox.Done
                 else FailedUntil(e', later))
  {
    NextIsUnique(s.events, o.now, n);
    hide Delay, Enqueue, FindNext;
  }

  /** A document's record is left alone exactly if it is generated, finally failed or cancelled; from any
    * other status the request is built and sent, and the record ends in one of three. */
  lemma {:induction false} OthersAreSubmitted(s: State, doc: Uuid, o: Outside, id: nat)
    requires id < |s.records| && s.records[id].doc == doc
    requires forall j | 0 <= j < |s.records| && j != id :: s.records[j].doc != doc
    ensures var s' := Generate(s, doc, o).0;
      if s.records[id].status in {RecordStatus.Generated, FailedFinal, RecordStatus.Cancelled} then s' == s
      else && s'.calls == s.calls + (if o.request.Err? then [] else [Call(doc, o.attempt)])
           && |s'.records| == |s.records| && s'.records[id].doc == doc
           && s'.records[id].status == (if o.request.Err? then FailedFinal
                                        else if o.attempt.Answered? then RecordStatus.Generated else FailedRetryable)
  {
    assert s.records[id] in s.records;
    GenerateEffect(s, doc, o);
  }

  // ---------- Every sale is asked for ----------

  /** Only requests stand under the keys of requests, each one decodable. */
  predicate RequestKeys(es: seq<Event>) {
    forall i | 0 <= i < |es| && es[i].key.prefix == "einvoice:generate:"
      :: es[i].kind == GENERATE && es[i].payload.DocumentId?
  }

  predicate KeepsRequestKeys(op: Op) {
    op.Add? && op.key.prefix == "einvoice:generate:" ==> op.kind == GENERATE && op.payload.DocumentId?
  }

  predicate Requested(es: seq<Event>, doc: Uuid) {
    exists i | 0 <= i < |es| :: Asks(es[i], doc)
  }

  lemma {:induction false} StepKeepsRequests(handlers: set<string>, s: State, op: Op, doc: Uuid)
    requires Keyed(op) && KeepsRequestKeys(op) && Queue(s.events) && RequestKeys(s.events)
    ensures var s' := Next(handlers, s, op);
      && Queue(s'.events) && RequestKeys(s'.events) && (Requested(s.events, doc) ==> Requested(s'.events, doc))
  {
    if op.Add? {
      EnqueueKeepsQueue(s.events, op.kind, op.key, op.payload, op.now);
      assert s.events <= Next(handlers, s, op).events;
    } else {
      ProcessKeepsRequests(handlers, s, op.outside, doc);
    }
  }

  lemma {:induction false} ProcessKeepsRequests(handlers: set<string>, s: State, o: Outside, doc: Uuid)
    requires Queue(s.events) && RequestKeys(s.events)
    ensures var es := Process(handlers, s, o).events;
      && Queue(es) && RequestKeys(es) && (Requested(s.events, doc) ==> Requested(es, doc))
  {
    var next := FindNext(s.events, o.now);
    if next.Some? {
      var n := next.value;
      ProcessEvents(handlers, s, o);
      var claimed := WithEvent(s, n, Claimed(s.events[n]));
      HandleAddsWebhooks(handlers, claimed, claimed.events[n], o);
      hide Handle, FindNext, Delay, Queue;
      if Requested(s.events, doc) {
        var i :| 0 <= i < |s.events| && Asks(s.events[i], doc);
        assert Asks(Process(handlers, s, o).events[i], doc);
      }
    }
  }

  lemma {:induction false} HandleAddsWebhooks(handlers: set<string>, s: State, e: Event, o: Outside)
    ensures var es := Handle(handlers, s, e, o).0.events;
      && s.events <= es && forall i | |s.events| <= i < |es| :: es[i].key.prefix != "einvoice:generate:"
  {
    forall kind: string ensures ("webhook-source:" + kind + ":")[0] != "einvoice:generate:"[0] {}
    hide FindRecord, Updated;
  }

  lemma {:induction false} EnqueuedIsQueued(es: seq<Event>, doc: Uuid, now: Time)
    requires Queue(es) && RequestKeys(es)
    ensures Requested(Enqueue(es, GENERATE, GenerateKey(doc), DocumentId(doc), now), doc)
  {
    var es' := Enqueue(es, GENERATE, GenerateKey(doc), DocumentId(doc), now);
    if HasKey(es, GenerateKey(doc)) {
      var e :| e in es && e.key == GenerateKey(doc);
      var i :| 0 <= i < |es| && es[i] == e;
      assert Asks(es'[i], doc);
    } else {
      assert Asks(es'[|es|], doc);
    }
  }

  /** Over every run in which requests are queued under their document's key and nothing else is queued
    * under such keys, every document that was ever queued has a request, whatever else was queued. */
  lemma {:induction false} EverySaleIsAsked(handlers: set<string>, s: State, ops: seq<Op>, doc: Uuid)
    requires Queue(s.events) && RequestKeys(s.events) && forall op <- ops :: Keyed(op) && KeepsRequestKeys(op)
    requires Requested(s.events, doc)
             || exists op <- ops :: op.Add? && op.kind == "einvoice.generate" && op.payload == DocumentId(doc)
    ensures Requested(Run(handlers, s, ops).events, doc)
    decreases |ops|
  {
    if ops != [] {
      var op := ops[0];
      assert Keyed(op) && KeepsRequestKeys(op);
      StepKeepsRequests(handlers, s, op, doc);
      if op.Add? && op.kind == GENERATE && op.payload == DocumentId(doc) { EnqueuedIsQueued(s.events, doc, op.now); }
      EverySaleIsAsked(handlers, Next(handlers, s, op), ops[1..], doc);
    }
  }
}
