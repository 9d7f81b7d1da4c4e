/** internal/modules/einvoice: one record per sales document, driven by the outbox poller. */
module EInvoice {
  import opened Wrappers
  import opened Outbox

  datatype RecordStatus = Draft | Queued | Submitting | Generated | FailedRetryable | FailedFinal | CancelPending
      | Cancelled

  /** No worker moves a record on from these. */
  predicate Terminal(s: RecordStatus) {
    s.Generated? || s.FailedFinal? || s.Cancelled?
  }

  /** An einvoice_records row; a record's id is its position. */
  datatype Record = Record(doc: Uuid, status: RecordStatus, irn: Option<string>, ackNumber: Option<string>,
                           errorMessage: Option<string>)

  datatype Fields = Fields(irn: Option<string>, ackNumber: Option<string>, errorMessage: Option<string>)

  const NO_FIELDS := Fields(None, None, None)

  datatype Response = Response(irn: string, ackNumber: string)

  /** What becomes of a request for an invoice: it is answered, or the provider issues it and the answer
    * is lost on the way back (a time-out, an unreadable body), or it is refused. */
  datatype Attempt = Answered(response: Response) | Lost(error: string) | Refused(error: string)

  /** What GenerateIRN returns: a lost answer looks like a refusal. */
  function Reply(a: Attempt): Result<Response, string> {
    match a
    case Answered(response) => Ok(response)
    case Lost(error) => Err(error)
    case Refused(error) => Err(error)
  }

  /** The provider has issued an invoice. */
  predicate Issues(a: Attempt) {
    !a.Refused?
  }

  /** A call that reached the provider, and what became of it. */
  datatype Call = Call(doc: Uuid, attempt: Attempt)

  /** The tables, and the provider's own log, which no rollback reaches. */
  datatype State = State(events: seq<Event>, records: seq<Record>, calls: seq<Call>)

  const GENERATE := "einvoice.generate"

  function GenerateKey(doc: Uuid): Key {
    Key("einvoice:generate:", doc)
  }

  function WebhookKey(kind: string, record: nat): Key {
    Key("webhook-source:" + kind + ":", record)
  }

  /** What a processing step meets outside: the clock, whether the request can be built, the
    * provider's part, what any other handler returns, and whether the transaction commits. */
  datatype Outside = Outside(now: Time, request: Result<(), string>, attempt: Attempt,
                             other: Option<HandlerError>, commits: bool)

  // ---------- Records ----------

  /** COALESCE: an absent field keeps the stored value. */
  function Coalesce(update: Option<string>, stored: Option<string>): Option<string> {
    if update.Some? then update else stored
  }

  function Updated(r: Record, status: RecordStatus, f: Fields): Record {
    r.(status := status, irn := Coalesce(f.irn, r.irn), ackNumber := Coalesce(f.ackNumber, r.ackNumber),
       errorMessage := Coalesce(f.errorMessage, r.errorMessage))
  }

  function FindRecord(rs: seq<Record>, doc: Uuid): (r: Option<nat>)
    ensures r.Some? ==> r.value < |rs| && rs[r.value].doc == doc
    ensures r.None? ==> forall x <- rs :: x.doc != doc
  {
    if rs == [] then None
    else if rs[|rs| - 1].doc == doc then Some(|rs| - 1) else FindRecord(rs[..|rs| - 1], doc)
  }

  function WithRecord(s: State, id: nat, status: RecordStatus, f: Fields): State
    requires id < |s.records|
  {
    s.(records := s.records[id := Updated(s.records[id], status, f)])
  }

  function WithWebhook(s: State, kind: string, id: nat, doc: Uuid, now: Time): State {
    s.(events := Enqueue(s.events, kind, WebhookKey(kind, id), DocumentId(doc), now))
  }

  // ---------- GenerateForDocument ----------

  /** From a record that is not terminal: build, submit, and keep what came of it. */
  function Submit(s: State, id: nat, o: Outside): (r: (State, Option<HandlerError>))
    requires id < |s.records|
    ensures s.events <= r.0.events
  {
    var doc := s.records[id].doc;
    if o.request.Err? then
      var failed := WithRecord(s, id, FailedFinal, Fields(None, None, Some(o.request.error)));
      (WithWebhook(failed, "einvoice.failed", id, doc, o.now), Some(Permanent))
    else
      var submitting := WithRecord(s, id, Submitting, NO_FIELDS);
      var called := submitting.(calls := s.calls + [Call(doc, o.attempt)]);
      var reply := Reply(o.attempt);
      if reply.Err? then
        (WithRecord(called, id, FailedRetryable, Fields(None, None, Some(reply.error))), Some(Retryable))
      else
        var generated := WithRecord(called, id, Generated,
                                    Fields(Some(reply.value.irn), Some(reply.value.ackNumber), None));
        (WithWebhook(generated, "einvoice.generated", id, doc, o.now), None)
  }

  function Generate(s: State, doc: Uuid, o: Outside): (r: (State, Option<HandlerError>))
    ensures s.events <= r.0.events
  {
    var found := FindRecord(s.records, doc);
    if found.Some? then
      if Terminal(s.records[found.value].status) then (s, None) else Submit(s, found.value, o)
    else
      Submit(s.(records := s.records + [Record(doc, Queued, None, None, None)]), |s.records|, o)
  }

  /** What the registered handler does with an event. */
  function Handle(handlers: set<string>, s: State, e: Event, o: Outside): (r: (State, Option<HandlerError>))
    ensures s.events <= r.0.events
  {
    if e.kind !in handlers then (s, Some(Retryable))
    else if e.kind != GENERATE then (s, o.other)
    else if e.payload.Malformed? then (s, Some(Permanent))
    else Generate(s, e.payload.id, o)
  }

  // ---------- One step of the poller ----------

  function WithEvent(s: State, i: nat, e: Event): State
    requires i < |s.events|
  {
    s.(events := s.events[i := e])
  }

  /** The handler and the mark, before the commit. */
  function Handled(handlers: set<string>, claimed: State, i: nat, o: Outside): State
    requires i < |claimed.events|
  {
    var (after, err) := Handle(handlers, claimed, claimed.events[i], o);
    WithEvent(after, i, Marked(claimed.events[i], err, o.now))
  }

  /** ProcessOnce: the claim commits on its own; handler and mark commit together, or are rolled back
    * together while the provider keeps the call it answered. */
  function Process(handlers: set<string>, s: State, o: Outside): State {
    var next := FindNext(s.events, o.now);
    if next.None? then s
    else
      var claimed := WithEvent(s, next.value, Claimed(s.events[next.value]));
      var attempted := Handled(handlers, claimed, next.value, o);
      if o.commits then attempted else claimed.(calls := attempted.calls)
  }

  // ---------- The worker ----------

  class Worker {
    const handlers: set<string>
    var events: seq<Event>
    var records: seq<Record>
    var calls: seq<Call>

    constructor (handlers: set<string>)
      ensures this.handlers == handlers && Contents() == State([], [], [])
    {
      this.handlers := handlers;
      events, records, calls := [], [], [];
    }

    function Contents(): State
      reads this
    {
      State(events, records, calls)
    }

    method EnqueueEvent(kind: string, key: Key, payload: Payload, now: Time)
      modifies this
      ensures Contents() == old(Contents()).(events := Enqueue(old(events), kind, key, payload, now))
    {
      if exists e <- events :: e.key == key { return; }
      events := events + [Event(kind, key, payload, Pending, 0, now)];
    }

    method ClaimNext(now: Time) returns (claimed: Option<nat>)
      modifies this
      ensures claimed == FindNext(old(events), now)
      ensures claimed.None? ==> Contents() == old(Contents())
      ensures claimed.Some? ==>
                Contents() == WithEvent(old(Contents()), claimed.value, Claimed(old(events)[claimed.value]))
    {
      for i := 0 to |events|
        invariant events == old(events) && forall j | 0 <= j < i :: !Claimable(events[j], now)
      {
        if Claimable(events[i], now) {
          NextIsUnique(events, now, i);
          events := events[i := Claimed(events[i])];
          return Some(i);
        }
      }
      return None;
    }

    method MarkDone(i: nat)
      requires i < |events|
      modifies this
      ensures Contents() == WithEvent(old(Contents()), i, MarkedDone(old(events)[i]))
    {
      events := events[i := MarkedDone(events[i])];
    }

    method MarkFailed(i: nat, attempts: nat, err: HandlerError, now: Time)
      requires i < |events| && attempts == events[i].attempts
      modifies this
      ensures Contents() == WithEvent(old(Contents()), i, MarkedFailed(old(events)[i], err, now))
    {
      var delay := Backoff(attempts);
      var next := now + delay;
      if err.Permanent? { next := now + HUNDRED_YEARS; }
      events := events[i := events[i].(status := Failed, nextAttemptAt := next)];
    }

    method UpdateStatus(id: nat, status: RecordStatus, f: Fields)
      requires id < |records|
      modifies this
      ensures Contents() == WithRecord(old(Contents()), id, status, f)
    {
      records := records[id := Updated(records[id], status, f)];
    }

    /** Builds and submits the record's request; the provider is asked at most once. */
    method SubmitRecord(id: nat, o: Outside) returns (err: Option<HandlerError>)
      requires id < |records|
      modifies this
      ensures (Contents(), err) == Submit(old(Contents()), id, o)
    {
      var doc := records[id].doc;
      if o.request.Err? {
        UpdateStatus(id, FailedFinal, Fields(None, None, Some(o.request.error)));
        EnqueueEvent("einvoice.failed", WebhookKey("einvoice.failed", id), DocumentId(doc), o.now);
        return Some(Permanent);
      }
      UpdateStatus(id, Submitting, NO_FIELDS);
      calls := calls + [Call(doc, o.attempt)];
      var reply := Reply(o.attempt);
      if reply.Err? {
        UpdateStatus(id, FailedRetryable, Fields(None, None, Some(reply.error)));
        return Some(Retryable);
      }
      UpdateStatus(id, Generated, Fields(Some(reply.value.irn), Some(reply.value.ackNumber), None));
      EnqueueEvent("einvoice.generated", WebhookKey("einvoice.generated", id), DocumentId(doc), o.now);
      return None;
    }

    method GenerateForDocument(doc: Uuid, o: Outside) returns (err: Option<HandlerError>)
      modifies this
      ensures (Contents(), err) == Generate(old(Contents()), doc, o)
    {
      var existing := FindRecord(records, doc);
      if existing.Some? {
        if Terminal(records[existing.value].status) { return None; }
      } else {
        existing := Some(|records|);
        records := records + [Record(doc, Queued, None, None, None)];
      }
      err := SubmitRecord(existing.value, o);
    }

    method RunHandler(i: nat, o: Outside) returns (err: Option<HandlerError>)
      requires i < |events|
      modifies this
      ensures (Contents(), err) == Handle(handlers, old(Contents()), old(events)[i], o)
    {
      var e := events[i];
      if e.kind !in handlers { return Some(Retryable); }
      if e.kind != GENERATE { return o.other; }
      if e.payload.Malformed? { return Some(Permanent); }
      err := GenerateForDocument(e.payload.id, o);
    }

    method ProcessOnce(o: Outside) returns (processed: bool)
      modifies this
      ensures Contents() == Process(handlers, old(Contents()), o)
      ensures processed <==> exists e <- old(events) :: Claimable(e, o.now)
    {
      var claimed := ClaimNext(o.now);
      if claimed.None? { return false; }
      assert old(events)[claimed.value] in old(events);
      var i := claimed.value;
      var savedEvents, savedRecords := events, records;
      var err := RunHandler(i, o);
      if err.Some? {
        MarkFailed(i, events[i].attempts, err.value, o.now);
      } else {
        MarkDone(i);
      }
      if !o.commits { events, records := savedEvents, savedRecords; }
      return true;
    }
  }
}
