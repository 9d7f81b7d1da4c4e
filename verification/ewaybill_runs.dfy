/** Every serial run of e-Way Bill operations, on any number of documents. */
module EWayBillRuns {
  import opened Wrappers
  import opened EWayBill

  datatype Op =
    | ByApi(doc: Uuid, irn: string, answer: Result<EwbResponse, string>)
    | Assess(doc: Uuid, live: Result<Bill, ()>, req: Result<Requirement, ()>)
    | FillIn(doc: Uuid, info: TransportInfo, live: Result<Bill, ()>, req: Result<Requirement, ()>)
    | Upload(doc: Uuid, live: Result<Bill, ()>,
        req: Result<Requirement, ()>, file: Result<string, string>)
    | Manual(doc: Uuid, result: EwbResponse)
    | Imported(doc: Uuid, claim: Claim, result: EwbResponse)
    | Shut(id: int, role: Role)
    | Void(doc: Uuid, reason: string, accepted: bool)

  /** One transaction.  The caller decides whether an error takes back what was written before it. */
  datatype Act = Act(op: Op, keeps: bool)

  function Settle<T>(rs: seq<Record>, e: Ended<T>, keeps: bool): seq<Record> {
    if e.outcome.Err? && !keeps then rs else e.records
  }

  function Next(rs: seq<Record>, a: Act): seq<Record> {
    match a.op
    case ByApi(doc, irn, answer) => Settle(rs, Generate(rs, doc, irn, answer), a.keeps)
    case Assess(doc, live, req) => Settle(rs, Evaluate(rs, doc, live, req), a.keeps)
    case FillIn(doc, info, live, req) => Settle(rs, UpdateTransport(rs, doc, info, live, req), a.keeps)
    case Upload(doc, live, req, file) => Settle(rs, Prepare(rs, doc, live, req, file), a.keeps)
    case Manual(doc, result) => Settle(rs, RecordManual(rs, doc, result), a.keeps)
    case Imported(doc, claim, result) => Settle(rs, Import(rs, doc, claim, result), a.keeps)
    case Shut(id, role) => Settle(rs, CloseRecord(rs, id, role), a.keeps)
    case Void(doc, reason, accepted) => Settle(rs, CancelBill(rs, doc, reason, accepted), a.keeps)
  }

  function Run(rs: seq<Record>, acts: seq<Act>): seq<Record>
    decreases |acts|
  {
    if acts == [] then rs else Run(Next(rs, acts[0]), acts[1..])
  }

  // ---------- One capture per document ----------

  /** A document's records are at most one of the API's and then at most one of the free portal's, and
    * exactly the free portal's carry a snapshot. */
  predicate Sound(rs: seq<Record>) {
    && (forall i, j | 0 <= i < j < |rs| && rs[i].doc == rs[j].doc :: rs[i].mode.AutomaticApi? && rs[j].mode.FreePortal?)
    && (forall i | 0 <= i < |rs| :: rs[i].mode.FreePortal? <==> rs[i].snapshot.Some?)
  }

  /** Everything in a bill but its transport. */
  predicate SameInvoice(a: Bill, b: Bill) {
    a == b.(transport := a.transport)
  }

  predicate SameCapture(before: Record, after: Record) {
    && after.doc == before.doc && after.mode == before.mode && after.irn == before.irn
    && (before.snapshot.Some? ==> after.snapshot.Some? && SameInvoice(before.snapshot.value, after.snapshot.value))
    && (before.snapshot.None? ==> after.snapshot.None?)
  }

  predicate Kept(before: seq<Record>, after: seq<Record>) {
    |before| <= |after| && forall i | 0 <= i < |before| :: SameCapture(before[i], after[i])
  }

  lemma {:induction false} KeptTransitive(a: seq<Record>, b: seq<Record>, c: seq<Record>)
    requires Kept(a, b) && Kept(b, c)
    ensures Kept(a, c)
  {
    forall i | 0 <= i < |a| ensures SameCapture(a[i], c[i]) {
      assert SameCapture(a[i], b[i]) && SameCapture(b[i], c[i]);
    }
  }

  predicate Holds(start: seq<Record>, rs: seq<Record>) {
    Sound(rs) && Kept(start, rs)
  }

  lemma {:induction false} KeptReflexive(rs: seq<Record>)
    ensures Kept(rs, rs)
  {
    forall i | 0 <= i < |rs| ensures SameCapture(rs[i], rs[i]) {}
  }

  /** An update that brings no snapshot, or the stored one with another transport, keeps the capture. */
  lemma {:induction false} UpdateHolds(start: seq<Record>, rs: seq<Record>, id: nat, status: Status, f: Fields)
    requires Holds(start, rs) && id < |rs|
    requires f.snapshot.Some? ==> rs[id].snapshot.Some? && SameInvoice(rs[id].snapshot.value, f.snapshot.value)
    ensures Holds(start, Update(rs, id, status, f))
  {
    var updated := Update(rs, id, status, f);
    forall i | 0 <= i < |rs| ensures SameCapture(rs[i], updated[i]) {}
    KeptTransitive(start, rs, updated);
  }

  lemma {:induction false} UpdateLatestHolds(start: seq<Record>, rs: seq<Record>, doc: Uuid, status: Status, f: Fields)
    requires Holds(start, rs) && f.snapshot.None?
    ensures Latest(rs, doc).Some? ==> Holds(start, Update(rs, Latest(rs, doc).value, status, f))
  {
    if Latest(rs, doc).Some? { UpdateHolds(start, rs, Latest(rs, doc).value, status, f); }
  }

  lemma {:induction false} FirstApiRecord(rs: seq<Record>, doc: Uuid, irn: string)
    requires Sound(rs) && Latest(rs, doc).None?
    ensures Holds(rs, rs + [NewRecord(doc, AutomaticApi, Queued, Some(irn))])
  {
    assert forall i | 0 <= i < |rs| :: rs[i] in rs;
    KeptReflexive(rs);
  }

  lemma {:induction false} GenerateHolds(rs: seq<Record>, doc: Uuid, irn: string, answer: Result<EwbResponse, string>)
    requires Sound(rs)
    ensures Holds(rs, Generate(rs, doc, irn, answer).records)
  {
    KeptReflexive(rs);
    var existing := Latest(rs, doc);
    if existing.None? { FirstApiRecord(rs, doc, irn); }
    var base := if existing.Some? then rs else rs + [NewRecord(doc, AutomaticApi, Queued, Some(irn))];
    var id := if existing.Some? then existing.value else |rs|;
    UpdateHolds(rs, base, id, Submitting, NO_FIELDS);
    var submitting := Update(base, id, Submitting, NO_FIELDS);
    if answer.Err? {
      UpdateHolds(rs, submitting, id, FailedRetryable, ErrorField(answer.error));
    } else {
      UpdateHolds(rs, submitting, id, Generated, ResultFields(answer.value, None));
    }
  }

  lemma {:induction false} FirstCapture(rs: seq<Record>, doc: Uuid, bill: Bill)
    requires Sound(rs) && (Latest(rs, doc).Some? ==> rs[Latest(rs, doc).value].mode.AutomaticApi?)
    ensures var rs' := Update(rs + [NewRecord(doc, FreePortal, NotRequired, None)], |rs|, NotRequired,
                              SnapshotField(bill));
            Holds(rs, rs') && Latest(rs', doc) == Some(|rs|)
  {
    var rs' := Update(rs + [NewRecord(doc, FreePortal, NotRequired, None)], |rs|, NotRequired, SnapshotField(bill));
    var existing := Latest(rs, doc);
    forall i | 0 <= i < |rs| && rs[i].doc == doc ensures rs[i].mode.AutomaticApi? {
      assert rs[i] in rs;
      assert i <= existing.value;
    }
    KeptReflexive(rs);
    assert rs'[..|rs|] == rs;
  }

  lemma {:induction false} CaptureHolds(rs: seq<Record>, doc: Uuid, live: Result<Bill, ()>)
    requires Sound(rs)
    ensures var e := Capture(rs, doc, live);
      && Holds(rs, e.records)
      && (e.outcome.Ok? ==> Latest(e.records, doc) == Some(e.outcome.value.0))
  {
    KeptReflexive(rs);
    var existing := Latest(rs, doc);
    if live.Ok? && !(existing.Some? && rs[existing.value].mode.FreePortal?) { FirstCapture(rs, doc, live.value); }
  }

  lemma {:induction false} EvaluateHolds(start: seq<Record>, rs: seq<Record>, doc: Uuid, live: Result<Bill, ()>,
                                         req: Result<Requirement, ()>)
    requires Holds(start, rs)
    ensures Holds(start, Evaluate(rs, doc, live, req).records)
  {
    CaptureHolds(rs, doc, live);
    var captured := Capture(rs, doc, live);
    KeptTransitive(start, rs, captured.records);
    if captured.outcome.Ok? && req.Ok? {
      UpdateHolds(start, captured.records, captured.outcome.value.0, EligibilityStatus(req.value), NO_FIELDS);
    }
  }

  lemma {:induction false} UpdateTransportHolds(rs: seq<Record>, doc: Uuid, p: TransportInfo,
        live: Result<Bill, ()>, req: Result<Requirement, ()>)
    requires Sound(rs)
    ensures Holds(rs, UpdateTransport(rs, doc, p, live, req).records)
  {
    KeptReflexive(rs);
    var found := Latest(rs, doc);
    if found.Some? && rs[found.value].snapshot.Some? {
      var patched := SnapshotField(Patched(rs[found.value].snapshot.value, p));
      UpdateHolds(rs, rs, found.value, rs[found.value].status, patched);
      EvaluateHolds(rs, Update(rs, found.value, rs[found.value].status, patched), doc, live, req);
    }
  }

  lemma {:induction false} PrepareHolds(rs: seq<Record>, doc: Uuid, live: Result<Bill, ()>,
        req: Result<Requirement, ()>, file: Result<string, string>)
    requires Sound(rs)
    ensures Holds(rs, Prepare(rs, doc, live, req, file).records)
  {
    KeptReflexive(rs);
    EvaluateHolds(rs, rs, doc, live, req);
    var evaluated := Evaluate(rs, doc, live, req).records;
    var found := Latest(evaluated, doc);
    if found.Some? {
      UpdateHolds(rs, evaluated, found.value, Preparing, NO_FIELDS);
      var preparing := Update(evaluated, found.value, Preparing, NO_FIELDS);
      if file.Err? {
        UpdateHolds(rs, preparing, found.value, NeedsInformation, ErrorField(file.error));
      } else {
        UpdateHolds(rs, preparing, found.value, AwaitingPortalCompletion, FileField(file.value));
      }
    }
  }

  lemma {:induction false} StepHolds(rs: seq<Record>, a: Act)
    requires Sound(rs)
    ensures Holds(rs, Next(rs, a))
  {
    KeptReflexive(rs);
    hide Generate, Evaluate, UpdateTransport, Prepare, Updated, Latest;
    match a.op {
      case ByApi(doc, irn, answer) => GenerateHolds(rs, doc, irn, answer);
      case Assess(doc, live, req) => EvaluateHolds(rs, rs, doc, live, req);
      case FillIn(doc, info, live, req) => UpdateTransportHolds(rs, doc, info, live, req);
      case Upload(doc, live, req, file) => PrepareHolds(rs, doc, live, req, file);
      case Manual(doc, result) => UpdateLatestHolds(rs, rs, doc, Generated, ResultFields(result, Some(ManualPortal)));
      case Imported(doc, claim, result) => UpdateLatestHolds(rs, rs, doc, Generated,
                                                             ResultFields(result, Some(ImportedFile)));
      case Shut(id, role) => if 0 <= id < |rs| { UpdateHolds(rs, rs, id, Closed, CloserField(role)); }
      case Void(doc, reason, accepted) => UpdateLatestHolds(rs, rs, doc, Cancelled, ReasonField(reason));
    }
  }

  /** In every run, whatever master data says by then and whether or not failed operations are rolled
    * back: a document has at most one free-portal record, records are never removed, and a captured
    * invoice never changes but for its transport. */
  lemma {:induction false} CaptureIsKept(rs: seq<Record>, acts: seq<Act>)
    requires Sound(rs)
    ensures Sound(Run(rs, acts)) && Kept(rs, Run(rs, acts))
    decreases |acts|
  {
    if acts != [] {
      StepHolds(rs, acts[0]);
      CaptureIsKept(Next(rs, acts[0]), acts[1..]);
      KeptTransitive(rs, Next(rs, acts[0]), Run(rs, acts));
    } else {
      KeptReflexive(rs);
    }
  }

  lemma {:induction false} FreePortalIsLatest(rs: seq<Record>, id: nat)
    requires Sound(rs) && id < |rs| && rs[id].mode.FreePortal?
    ensures Latest(rs, rs[id].doc) == Some(id)
  {
    assert rs[id] in rs;
  }

  /** However many operations follow the first capture, a result is linked to the document exactly if
    * its four identifiers are those of that capture; otherwise it is refused and nothing changes. */
  lemma {:induction false} ImportLinksOnlyItsInvoice(rs: seq<Record>, id: nat, acts: seq<Act>, claim: Claim,
                                                     result: EwbResponse)
    requires Sound(rs) && id < |rs| && rs[id].snapshot.Some?
    ensures var now := Run(rs, acts);
            var e := Import(now, rs[id].doc, claim, result);
      && id < |now|
      && (e.outcome.Ok? <==> Matches(claim, rs[id].snapshot.value))
      && (e.outcome.Ok? ==> e.records == Update(now, id, Generated, ResultFields(result, Some(ImportedFile))))
      && (e.outcome.Err? ==> e.outcome.error == ResultMismatch && e.records == now)
  {
    CaptureIsKept(rs, acts);
    var now := Run(rs, acts);
    assert SameCapture(rs[id], now[id]);
    FreePortalIsLatest(now, id);
  }

  // ---------- Typed-in, cancelled and closed bills ----------

  /** A typed-in result is taken for any document with a record, whatever its status, so no status is
    * final; it keeps the capture, and the bill can then be cancelled exactly if the provider agrees. */
  lemma {:induction false} ManualResultAlwaysTaken(rs: seq<Record>, doc: Uuid, result: EwbResponse, reason: string,
                                                   accepted: bool)
    ensures var e := RecordManual(rs, doc, result);
      && (e.outcome.Ok? <==> exists r <- rs :: r.doc == doc)
      && (e.outcome.Ok? ==>
            var id := e.outcome.value;
            && id < |rs| && SameCapture(rs[id], e.records[id]) && e.records == rs[id := e.records[id]]
            && (CancelBill(e.records, doc, reason, accepted).outcome.Ok? <==> accepted))
  {
    var found := Latest(rs, doc);
    if found.Some? {
      var id := found.value;
      assert rs[id] in rs;
      LatestOfUpdate(rs, doc, id, Generated, ResultFields(result, Some(ManualPortal)));
    }
  }

  lemma {:induction false} LatestOfUpdate(rs: seq<Record>, doc: Uuid, id: nat, status: Status, f: Fields)
    requires id < |rs| && Latest(rs, doc) == Some(id)
    ensures Latest(Update(rs, id, status, f), doc) == Some(id)
  {
    var after := Update(rs, id, status, f);
    assert after[id] in after;
    forall j | id < j < |after| ensures after[j].doc != doc { assert after[j] == rs[j]; }
  }

  /** A bill is cancelled exactly if the document's latest record is generated under a number and the
    * provider agrees; it is then neither cancelled again nor sent to the provider again. */
  lemma {:induction false} CancelledOnce(rs: seq<Record>, doc: Uuid, reason: string, accepted: bool, irn: string,
                                         answer: Result<EwbResponse, string>)
    ensures var e := CancelBill(rs, doc, reason, accepted);
      && (e.outcome.Ok? <==> accepted && Latest(rs, doc).Some? && rs[Latest(rs, doc).value].status.Generated?
                             && rs[Latest(rs, doc).value].ewbNumber.Some?)
      && (e.outcome.Ok? ==>
            && e.records[Latest(rs, doc).value]
               == rs[Latest(rs, doc).value].(status := Cancelled, cancelReason := Some(reason))
            && CancelBill(e.records, doc, reason, accepted) == Ended(e.records, Err(NotGenerated))
            && Generate(e.records, doc, irn, answer) == Ended(e.records, Ok(Latest(rs, doc).value)))
  {
    var found := Latest(rs, doc);
    if CancelBill(rs, doc, reason, accepted).outcome.Ok? {
      LatestOfUpdate(rs, doc, found.value, Cancelled, ReasonField(reason));
    }
  }

  /** The step that Close documents: a generated bill becomes a closed one. */
  predicate ClosesGenerated(before: seq<Record>, after: seq<Record>, id: int) {
    0 <= id < |before| && |after| == |before| && before[id].status.Generated? && after[id].status.Closed?
  }

  /** Close succeeds exactly for a known role and an existing record, and takes the documented step
    * exactly if that record was generated; it changes no other record and no capture. */
  lemma {:induction false} CloseTakesAnyStatus(rs: seq<Record>, id: int, role: Role)
    ensures var e := CloseRecord(rs, id, role);
      && (e.outcome.Ok? <==> !role.UnknownRole? && 0 <= id < |rs|)
      && (e.outcome.Ok? ==>
            && (ClosesGenerated(rs, e.records, id) <==> rs[id].status.Generated?)
            && e.records == rs[id := e.records[id]] && SameCapture(rs[id], e.records[id])
            && e.records[id].status.Closed? && e.records[id].closedBy == Some(role))
  {
  }

  /** A bill that was only assessed as needing no e-Way Bill can be closed as if it had been delivered. */
  lemma {:induction false} ClosesUngenerated(doc: Uuid, bill: Bill)
    ensures var assess := Act(Assess(doc, Ok(bill), Ok(RuleNotRequired)), false);
            var before, after := Run([], [assess]), Run([], [assess, Act(Shut(0, Supplier), false)]);
      && |before| == 1 && before[0].status.NotRequired? && before[0].ewbNumber.None?
      && |after| == 1 && after[0].status.Closed? && after[0].ewbNumber.None?
  {
    var assess, shut := Act(Assess(doc, Ok(bill), Ok(RuleNotRequired)), false), Act(Shut(0, Supplier), false);
    assert [assess, shut][1..] == [shut] && [shut][1..] == [] && [assess][1..] == [];
    var one := Next([], assess);
    assert |one| == 1 && one[0].status.NotRequired?;
    assert Run([], [assess]) == Run(one, []) == one;
    assert Run([], [assess, shut]) == Run(one, [shut]) == Run(Next(one, shut), []) == Next(one, shut);
  }

  // ---------- Which statuses are ever committed ----------

  /** The statuses a committed record can have when callers roll back failed operations. */
  predicate Lasting(s: Status) {
    || s.Generated? || s.Cancelled? || s.Closed?
    || s.NotRequired? || s.NeedsInformation? || s.Ready? || s.AwaitingPortalCompletion?
  }

  predicate AllLasting(rs: seq<Record>) {
    forall i | 0 <= i < |rs| :: Lasting(rs[i].status)
  }

  lemma {:induction false} UpdateLasts(rs: seq<Record>, id: nat, passing: Status, status: Status, f: Fields, g: Fields)
    requires AllLasting(rs) && Lasting(status) && id < |rs|
    ensures AllLasting(Update(rs, id, status, g))
    ensures AllLasting(Update(Update(rs, id, passing, f), id, status, g))
  {
  }

  lemma {:induction false} GenerateLasts(rs: seq<Record>, doc: Uuid, irn: string, answer: Result<EwbResponse, string>)
    requires AllLasting(rs) && answer.Ok?
    ensures AllLasting(Generate(rs, doc, irn, answer).records)
  {
  }

  lemma {:induction false} EvaluateLasts(rs: seq<Record>, doc: Uuid, live: Result<Bill, ()>,
                                         req: Result<Requirement, ()>)
    requires AllLasting(rs)
    ensures AllLasting(Evaluate(rs, doc, live, req).records)
  {
    var captured := Capture(rs, doc, live);
    assert AllLasting(captured.records);
    if captured.outcome.Ok? && req.Ok? {
      UpdateLasts(captured.records, captured.outcome.value.0, Preparing, EligibilityStatus(req.value), NO_FIELDS,
                  NO_FIELDS);
    }
  }

  lemma {:induction false} UpdateTransportLasts(rs: seq<Record>, doc: Uuid, p: TransportInfo,
        live: Result<Bill, ()>, req: Result<Requirement, ()>)
    requires AllLasting(rs)
    ensures AllLasting(UpdateTransport(rs, doc, p, live, req).records)
  {
    var found := Latest(rs, doc);
    if found.Some? && rs[found.value].snapshot.Some? {
      var patched := SnapshotField(Patched(rs[found.value].snapshot.value, p));
      UpdateLasts(rs, found.value, Preparing, rs[found.value].status, NO_FIELDS, patched);
      EvaluateLasts(Update(rs, found.value, rs[found.value].status, patched), doc, live, req);
    }
  }

  lemma {:induction false} PrepareLasts(rs: seq<Record>, doc: Uuid, live: Result<Bill, ()>,
        req: Result<Requirement, ()>, file: Result<string, string>)
    requires AllLasting(rs)
    ensures AllLasting(Prepare(rs, doc, live, req, file).records)
  {
    EvaluateLasts(rs, doc, live, req);
    var evaluated := Evaluate(rs, doc, live, req).records;
    var found := Latest(evaluated, doc);
    if found.Some? {
      if file.Err? {
        UpdateLasts(evaluated, found.value, Preparing, NeedsInformation, NO_FIELDS, ErrorField(file.error));
      } else {
        UpdateLasts(evaluated, found.value, Preparing, AwaitingPortalCompletion, NO_FIELDS, FileField(file.value));
      }
    }
  }

  lemma {:induction false} StepLasts(rs: seq<Record>, a: Act)
    requires AllLasting(rs) && !a.keeps
    ensures AllLasting(Next(rs, a))
  {
    match a.op {
      case ByApi(doc, irn, answer) => if answer.Ok? { GenerateLasts(rs, doc, irn, answer); }
      case Assess(doc, live, req) => EvaluateLasts(rs, doc, live, req);
      case FillIn(doc, info, live, req) => UpdateTransportLasts(rs, doc, info, live, req);
      case Upload(doc, live, req, file) => PrepareLasts(rs, doc, live, req, file);
      case Manual(doc, result) =>
      case Imported(doc, claim, result) =>
      case Shut(id, role) =>
      case Void(doc, reason, accepted) =>
    }
  }

  /** If callers roll back what fails, no record is ever seen queued, submitting, preparing or failed. */
  lemma {:induction false} OnlyLastingStatuses(rs: seq<Record>, acts: seq<Act>)
    requires AllLasting(rs) && forall a <- acts :: !a.keeps
    ensures AllLasting(Run(rs, acts))
    decreases |acts|
  {
    if acts != [] {
      assert acts[0] in acts;
      StepLasts(rs, acts[0]);
      OnlyLastingStatuses(Next(rs, acts[0]), acts[1..]);
    }
  }

  /** What a failed export writes. */
  lemma {:induction false} FailedExportWrites(rs: seq<Record>, doc: Uuid, live: Result<Bill, ()>,
                                              req: Result<Requirement, ()>, file: Result<string, string>)
    requires Prepare(rs, doc, live, req, file).outcome == Err(ExportFailed)
    ensures var after := Prepare(rs, doc, live, req, file).records;
      && file.Err? && Latest(after, doc).Some?
      && var r := after[Latest(after, doc).value]; r.status.NeedsInformation? && r.errorMessage == Some(file.error)
  {
    EvaluateFails(rs, doc, live, req);
    hide Evaluate, Latest;
    var evaluated := Evaluate(rs, doc, live, req).records;
    var id := Latest(evaluated, doc).value;
    LatestOfUpdate(evaluated, doc, id, Preparing, NO_FIELDS);
    LatestOfUpdate(Update(evaluated, id, Preparing, NO_FIELDS), doc, id, NeedsInformation, ErrorField(file.error));
  }

  lemma {:induction false} EvaluateFails(rs: seq<Record>, doc: Uuid, live: Result<Bill, ()>,
                                         req: Result<Requirement, ()>)
    ensures Evaluate(rs, doc, live, req).outcome != Err(ExportFailed)
  {
  }

  /** A failed export marks the record NEEDS_INFORMATION with the export's error; a caller that rolls
    * back loses the mark with everything else. */
  lemma {:induction false} FailedExportMark(rs: seq<Record>, doc: Uuid, live: Result<Bill, ()>,
                                            req: Result<Requirement, ()>, file: Result<string, string>)
    requires Prepare(rs, doc, live, req, file).outcome == Err(ExportFailed)
    ensures Next(rs, Act(Upload(doc, live, req, file), false)) == rs
    ensures var kept := Next(rs, Act(Upload(doc, live, req, file), true));
      && file.Err? && Latest(kept, doc).Some?
      && var r := kept[Latest(kept, doc).value]; r.status.NeedsInformation? && r.errorMessage == Some(file.error)
  {
    hide Prepare, Latest;
    FailedExportWrites(rs, doc, live, req, file);
  }

  /** If a caller keeps what a failed provider call wrote, even a free-portal record can be left in an
    * API status. */
  lemma {:induction false} FreePortalCanFailLikeApi(doc: Uuid, bill: Bill)
    ensures var acts := [Act(Assess(doc, Ok(bill), Ok(RuleReady)), false), Act(ByApi(doc, "irn", Err("outage")), true)];
            var rs := Run([], acts);
            |rs| == 1 && rs[0].mode.FreePortal? && rs[0].status.FailedRetryable?
  {
    var a, b := Act(Assess(doc, Ok(bill), Ok(RuleReady)), false), Act(ByApi(doc, "irn", Err("outage")), true);
    assert [a, b][1..] == [b] && [b][1..] == [];
    var one := Next([], a);
    assert |one| == 1 && one[0].mode.FreePortal? && one[0].status.Ready? && one[0].doc == doc;
    assert Run([], [a, b]) == Run(one, [b]) == Next(one, b);
  }

  // ---------- What each route writes ----------

  /** The record shows the result as it was given and, but for the route it came by, nothing else new. */
  predicate Linked(before: Record, after: Record, result: EwbResponse, source: Option<Source>) {
    after == before.(status := Generated, ewbNumber := Some(result.ewbNumber), validFrom := Some(result.validFrom),
                     validUntil := Some(result.validUntil),
                     source := if source.Some? then source else before.source)
  }

  /** Each of the three routes links a result to the latest record: the provider's without a source, the
    * typed-in and the imported one with theirs. */
  lemma {:induction false} ResultsAreLinked(rs: seq<Record>, doc: Uuid, irn: string, claim: Claim, result: EwbResponse,
                                            id: nat)
    requires Latest(rs, doc) == Some(id)
    ensures var e := Generate(rs, doc, irn, Ok(result));
            !LeftAlone(rs[id].status) ==> e.outcome == Ok(id) && e.records == rs[id := e.records[id]]
                                          && Linked(rs[id], e.records[id], result, None)
    ensures var e := RecordManual(rs, doc, result);
            e.outcome == Ok(id) && e.records == rs[id := e.records[id]]
                && Linked(rs[id], e.records[id], result, Some(ManualPortal))
    ensures var e := Import(rs, doc, claim, result);
            e.outcome.Ok? ==> e.outcome == Ok(id) && e.records == rs[id := e.records[id]]
                              && Linked(rs[id], e.records[id], result, Some(ImportedFile))
  {
  }

  /** The statuses after which the provider is not asked again. */
  predicate LeftAlone(s: Status) {
    s in {Generated, Cancelled, Closed, FailedFinal, NotRequired, Expired}
  }

  /** The provider's route leaves such a record as it is; any other document gets its answer on its latest
    * record or on a first one of its own, or the provider's error. */
  lemma {:induction false} ProviderRoute(rs: seq<Record>, doc: Uuid, irn: string, answer: Result<EwbResponse, string>)
    ensures var e, found := Generate(rs, doc, irn, answer), Latest(rs, doc);
      if found.Some? && LeftAlone(rs[found.value].status) then e == Ended(rs, Ok(found.value))
      else
        var id := if found.Some? then found.value else |rs|;
        && (e.outcome == if answer.Ok? then Ok(id) else Err(ProviderFailed))
        && |e.records| == (if found.Some? then |rs| else |rs| + 1)
        && (forall i | 0 <= i < |rs| && i != id :: e.records[i] == rs[i])
        && var r := e.records[id];
           && r.doc == doc && (found.None? ==> r.mode == AutomaticApi && r.irn == Some(irn) && r.snapshot == None)
           && (answer.Ok? ==> r.status == Generated && r.ewbNumber == Some(answer.value.ewbNumber))
           && (answer.Err? ==> r.status == FailedRetryable && r.errorMessage == Some(answer.error))
  {
  }

  /** An assessment sets what the rules say on a record that is not terminal, or only not required so far. */
  lemma {:induction false} AssessedStatus(rs: seq<Record>, doc: Uuid, live: Result<Bill, ()>, req: Requirement)
    requires Evaluate(rs, doc, live, Ok(req)).outcome.Ok?
    ensures var e, captured := Evaluate(rs, doc, live, Ok(req)), Capture(rs, doc, live);
      && e.outcome == Ok(req) && captured.outcome.Ok?
      && var id := captured.outcome.value.0;
         var before, after := captured.records[id], e.records[id];
         && e.records == captured.records[id := after] && after == before.(status := after.status)
         && if before.status in {Generated, Cancelled, Closed, FailedFinal, Expired} then after.status == before.status
            else && (after.status == Ready <==> req == RuleReady)
                 && (after.status == NotRequired <==> req == RuleNotRequired)
                 && (after.status == NeedsInformation <==> req == RuleRequired || req == RuleNeedsInformation)
  {
  }

  /** An upload goes through exactly if the document can be assessed, the rules say it is ready and the
    * export succeeds; the record then names the file and waits for the portal. */
  lemma {:induction false} UploadNeedsReady(rs: seq<Record>, doc: Uuid, live: Result<Bill, ()>,
                                            req: Result<Requirement, ()>, file: Result<string, string>)
    requires Sound(rs)
    ensures var e := Prepare(rs, doc, live, req, file);
      && (e.outcome.Ok? <==> Capture(rs, doc, live).outcome.Ok? && req == Ok(RuleReady) && file.Ok?)
      && (e.outcome.Ok? ==>
            && Latest(e.records, doc).Some?
            && var r := e.records[Latest(e.records, doc).value];
               r.status == AwaitingPortalCompletion && r.fileName == Some(file.value) && e.outcome == Ok(file.value))
  {
    CaptureHolds(rs, doc, live);
    var captured := Capture(rs, doc, live);
    hide Capture;
    if captured.outcome.Ok? && req == Ok(RuleReady) {
      var id := captured.outcome.value.0;
      var evaluated := Evaluate(rs, doc, live, req).records;
      assert Latest(evaluated, doc) == Some(id) by {
        LatestOfUpdate(captured.records, doc, id, EligibilityStatus(RuleReady), NO_FIELDS);
      }
      if file.Ok? {
        LatestOfUpdate(evaluated, doc, id, Preparing, NO_FIELDS);
        LatestOfUpdate(Update(evaluated, id, Preparing, NO_FIELDS), doc, id, AwaitingPortalCompletion,
                       FileField(file.value));
      }
    }
  }

  /** A transport update changes exactly what it gives. */
  lemma {:induction false} PatchedExactly(b: Bill, p: TransportInfo)
    ensures var t, t' := b.transport, Patched(b, p).transport;
      && SameInvoice(b, Patched(b, p)) && t'.mode == t.mode
      && t'.vehicle == (match p.vehicle case Some(v) => v case None => t.vehicle)
      && t'.transporterId == (match p.transporterId case Some(v) => v case None => t.transporterId)
      && t'.transporterName == (match p.transporterName case Some(v) => v case None => t.transporterName)
      && t'.distance == (match p.distance case Some(v) => v case None => t.distance)
  {
  }
}
