/** internal/modules/ewaybill: a document's e-Way Bill records, its one-time snapshot and the routes by
  * which a government result reaches it. */
module EWayBill {
  import opened Wrappers
  import TaxSnapshot

  datatype Status =
    | Draft | Queued | Submitting | Generated | FailedRetryable | FailedFinal | CancelPending | Cancelled | Closed
    | NotRequired | NeedsInformation | Ready | Preparing | PortalFileReady | AwaitingPortalCompletion | Expired

  predicate Terminal(s: Status) {
    s.Generated? || s.Cancelled? || s.Closed? || s.FailedFinal? || s.NotRequired? || s.Expired?
  }

  datatype Mode = AutomaticApi | FreePortal

  datatype Source = ManualPortal | ImportedFile | Api

  datatype Role = Supplier | Recipient | Transporter | Driver | UnknownRole(name: string)

  datatype Transport = Transport(mode: string, vehicle: string, transporterId: string, transporterName: string,
                                 distance: real)

  /** The rest of a captured bill: parties, places, the tax split and the rates filed per line. */
  datatype Particulars = Particulars(supplyPlace: string, recipientGstin: string, shipTo: string,
                                     tax: TaxSnapshot.Split, rates: map<string, TaxSnapshot.Split>, takenAt: int)

  /** The canonical snapshot. */
  datatype Bill = Bill(invoiceNumber: string, invoiceDate: int, supplierGstin: string, documentType: string,
                       particulars: Particulars, transport: Transport)

  /** An ewaybill_records row.  A record's id is its position, and rows stand in creation order. */
  datatype Record = Record(doc: Uuid, mode: Mode, status: Status, irn: Option<string>, ewbNumber: Option<string>,
                           validFrom: Option<int>, validUntil: Option<int>, source: Option<Source>,
                           snapshot: Option<Bill>, fileName: Option<string>, errorMessage: Option<string>,
                           closedBy: Option<Role>, cancelReason: Option<string>)

  datatype Fields = Fields(ewbNumber: Option<string>, validFrom: Option<int>, validUntil: Option<int>,
                           source: Option<Source>,
                           snapshot: Option<Bill>, fileName: Option<string>, errorMessage: Option<string>,
                           closedBy: Option<Role>, cancelReason: Option<string>)

  const NO_FIELDS := Fields(None, None, None, None, None, None, None, None, None)

  function ErrorField(message: string): (f: Fields)
    ensures f.snapshot.None?
  {
    NO_FIELDS.(errorMessage := Some(message))
  }

  function FileField(name: string): (f: Fields)
    ensures f.snapshot.None?
  {
    NO_FIELDS.(fileName := Some(name))
  }

  function CloserField(role: Role): (f: Fields)
    ensures f.snapshot.None?
  {
    NO_FIELDS.(closedBy := Some(role))
  }

  function ReasonField(reason: string): (f: Fields)
    ensures f.snapshot.None?
  {
    NO_FIELDS.(cancelReason := Some(reason))
  }

  function SnapshotField(b: Bill): (f: Fields)
    ensures f.snapshot == Some(b)
  {
    NO_FIELDS.(snapshot := Some(b))
  }

  datatype EwbError =
    | NotFound | NoSnapshot | NotGenerated | InvalidCloseRole | ResultMismatch | NotEligible | MissingInformation
    | LiveDataFailed | RulesFailed | ExportFailed | ProviderFailed

  datatype Requirement = RuleNotRequired | RuleRequired | RuleNeedsInformation | RuleReady

  // ---------- Rows ----------

  function Coalesce<T>(update: Option<T>, stored: Option<T>): Option<T> {
    if update.Some? then update else stored
  }

  function Updated(r: Record, status: Status, f: Fields): Record {
    r.(status := status,
       ewbNumber := Coalesce(f.ewbNumber, r.ewbNumber), validFrom := Coalesce(f.validFrom, r.validFrom),
       validUntil := Coalesce(f.validUntil, r.validUntil), source := Coalesce(f.source, r.source),
       snapshot := Coalesce(f.snapshot, r.snapshot), fileName := Coalesce(f.fileName, r.fileName),
       errorMessage := Coalesce(f.errorMessage, r.errorMessage), closedBy := Coalesce(f.closedBy, r.closedBy),
       cancelReason := Coalesce(f.cancelReason, r.cancelReason))
  }

  function Update(rs: seq<Record>, id: nat, status: Status, f: Fields): seq<Record>
    requires id < |rs|
  {
    rs[id := Updated(rs[id], status, f)]
  }

  /** ORDER BY created_at DESC LIMIT 1. */
  function Latest(rs: seq<Record>, doc: Uuid): (r: Option<nat>)
    ensures r.Some? ==> r.value < |rs| && rs[r.value].doc == doc && forall j | r.value < j < |rs| :: rs[j].doc != doc
    ensures r.None? ==> forall x <- rs :: x.doc != doc
  {
    if rs == [] then None
    else if rs[|rs| - 1].doc == doc then Some(|rs| - 1) else Latest(rs[..|rs| - 1], doc)
  }

  function NewRecord(doc: Uuid, mode: Mode, status: Status, irn: Option<string>): Record {
    Record(doc, mode, status, irn, None, None, None, None, None, None, None, None, None)
  }

  // ---------- Operations ----------

  /** The rows as an operation leaves them, written before any error too, and how it ended. */
  datatype Ended<T> = Ended(records: seq<Record>, outcome: Result<T, EwbError>)

  datatype EwbResponse = EwbResponse(ewbNumber: string, validFrom: int, validUntil: int)

  /** GenerateForDocument, the provider's route. */
  function Generate(rs: seq<Record>, doc: Uuid, irn: string, answer: Result<EwbResponse, string>): Ended<nat> {
    var existing := Latest(rs, doc);
    if existing.Some? && Terminal(rs[existing.value].status) then Ended(rs, Ok(existing.value))
    else
      var base := if existing.Some? then rs else rs + [NewRecord(doc, AutomaticApi, Queued, Some(irn))];
      var id := if existing.Some? then existing.value else |rs|;
      var submitting := Update(base, id, Submitting, NO_FIELDS);
      if answer.Err? then
        Ended(Update(submitting, id, FailedRetryable, ErrorField(answer.error)), Err(ProviderFailed))
      else
        Ended(Update(submitting, id, Generated, ResultFields(answer.value, None)), Ok(id))
  }

  function ResultFields(r: EwbResponse, source: Option<Source>): (f: Fields)
    ensures f.snapshot.None?
  {
    NO_FIELDS.(ewbNumber := Some(r.ewbNumber), validFrom := Some(r.validFrom), validUntil := Some(r.validUntil),
               source := source)
  }

  /** getOrCreateFreePortalRecord.  `live` is the bill that master data would give now. */
  function Capture(rs: seq<Record>, doc: Uuid, live: Result<Bill, ()>): (r: Ended<(nat, Bill)>)
    ensures r.outcome.Ok? ==> r.outcome.value.0 < |r.records| && r.records[r.outcome.value.0].snapshot.Some?
  {
    var existing := Latest(rs, doc);
    if existing.Some? && rs[existing.value].mode.FreePortal? && rs[existing.value].snapshot.Some? then
      Ended(rs, Ok((existing.value, rs[existing.value].snapshot.value)))
    else if live.Err? then Ended(rs, Err(LiveDataFailed))
    else
      var created := rs + [NewRecord(doc, FreePortal, NotRequired, None)];
      Ended(Update(created, |rs|, NotRequired, SnapshotField(live.value)), Ok((|rs|, live.value)))
  }

  function EligibilityStatus(req: Requirement): Status {
    match req
    case RuleReady => Ready
    case RuleNeedsInformation => NeedsInformation
    case RuleRequired => NeedsInformation
    case RuleNotRequired => NotRequired
  }

  /** EvaluateEligibility.  `req` is what the active rules say, if they can be loaded. */
  function Evaluate(rs: seq<Record>, doc: Uuid, live: Result<Bill, ()>,
                    req: Result<Requirement, ()>): Ended<Requirement> {
    var captured := Capture(rs, doc, live);
    if captured.outcome.Err? then Ended(captured.records, Err(captured.outcome.error))
    else if req.Err? then Ended(captured.records, Err(RulesFailed))
    else
      var id := captured.outcome.value.0;
      var status := captured.records[id].status;
      Ended(if !Terminal(status) || status.NotRequired?
            then Update(captured.records, id, EligibilityStatus(req.value), NO_FIELDS)
            else captured.records,
            Ok(req.value))
  }

  datatype TransportInfo = TransportInfo(vehicle: Option<string>, transporterId: Option<string>,
                                         transporterName: Option<string>, distance: Option<real>)

  function Or<T>(update: Option<T>, stored: T): T {
    if update.Some? then update.value else stored
  }

  function Patched(b: Bill, p: TransportInfo): Bill {
    b.(transport := b.transport.(vehicle := Or(p.vehicle, b.transport.vehicle),
                                 transporterId := Or(p.transporterId, b.transport.transporterId),
                                 transporterName := Or(p.transporterName, b.transport.transporterName),
                                 distance := Or(p.distance, b.transport.distance)))
  }

  function UpdateTransport(rs: seq<Record>, doc: Uuid, p: TransportInfo, live: Result<Bill, ()>,
                           req: Result<Requirement, ()>)
    : Ended<Requirement>
  {
    var found := Latest(rs, doc);
    if found.None? then Ended(rs, Err(NotFound))
    else
      var rec := rs[found.value];
      if rec.snapshot.None? then Ended(rs, Err(NoSnapshot))
      else
        var patched := SnapshotField(Patched(rec.snapshot.value, p));
        Evaluate(Update(rs, found.value, rec.status, patched), doc, live, req)
  }

  /** PrepareFreePortalUpload.  `file` is what the exporter makes of the stored bill. */
  function Prepare(rs: seq<Record>, doc: Uuid, live: Result<Bill, ()>, req: Result<Requirement, ()>,
                   file: Result<string, string>)
    : Ended<string>
  {
    var evaluated := Evaluate(rs, doc, live, req);
    if evaluated.outcome.Err? then Ended(evaluated.records, Err(evaluated.outcome.error))
    else if evaluated.outcome.value.RuleNotRequired? then Ended(evaluated.records, Err(NotEligible))
    else if !evaluated.outcome.value.RuleReady? then Ended(evaluated.records, Err(MissingInformation))
    else
      var found := Latest(evaluated.records, doc);
      if found.None? then Ended(evaluated.records, Err(NotFound))
      else
        var id := found.value;
        var preparing := Update(evaluated.records, id, Preparing, NO_FIELDS);
        if file.Err? then
          Ended(Update(preparing, id, NeedsInformation, ErrorField(file.error)), Err(ExportFailed))
        else
          Ended(Update(preparing, id, AwaitingPortalCompletion, FileField(file.value)), Ok(file.value))
  }

  function RecordManual(rs: seq<Record>, doc: Uuid, result: EwbResponse): Ended<nat> {
    var found := Latest(rs, doc);
    if found.None? then Ended(rs, Err(NotFound))
    else Ended(Update(rs, found.value, Generated, ResultFields(result, Some(ManualPortal))), Ok(found.value))
  }

  /** What an imported result says it belongs to. */
  datatype Claim = Claim(invoiceNumber: string, invoiceDate: int, supplierGstin: string, documentType: string)

  predicate Matches(c: Claim, b: Bill) {
    c == Claim(b.invoiceNumber, b.invoiceDate, b.supplierGstin, b.documentType)
  }

  function Import(rs: seq<Record>, doc: Uuid, claim: Claim, result: EwbResponse): Ended<nat> {
    var found := Latest(rs, doc);
    if found.None? then Ended(rs, Err(NotFound))
    else if rs[found.value].snapshot.None? then Ended(rs, Err(NoSnapshot))
    else if !Matches(claim, rs[found.value].snapshot.value) then Ended(rs, Err(ResultMismatch))
    else Ended(Update(rs, found.value, Generated, ResultFields(result, Some(ImportedFile))), Ok(found.value))
  }

  /** Close takes a record's own id and looks at no status. */
  function CloseRecord(rs: seq<Record>, id: int, role: Role): Ended<()> {
    if role.UnknownRole? then Ended(rs, Err(InvalidCloseRole))
    else if !(0 <= id < |rs|) then Ended(rs, Err(NotFound))
    else Ended(Update(rs, id, Closed, CloserField(role)), Ok(()))
  }

  function CancelBill(rs: seq<Record>, doc: Uuid, reason: string, accepted: bool): Ended<()> {
    var found := Latest(rs, doc);
    if found.None? then Ended(rs, Err(NotFound))
    else if !rs[found.value].status.Generated? || rs[found.value].ewbNumber.None? then Ended(rs, Err(NotGenerated))
    else if !accepted then Ended(rs, Err(ProviderFailed))
    else Ended(Update(rs, found.value, Cancelled, ReasonField(reason)), Ok(()))
  }

  // ---------- The service ----------

  class Service {
    var records: seq<Record>

    constructor ()
      ensures records == []
    {
      records := [];
    }

    method Create(r: Record) returns (id: nat)
      modifies this
      ensures records == old(records) + [r] && id == |old(records)|
    {
      id := |records|;
      records := records + [r];
    }

    method UpdateStatus(id: nat, status: Status, f: Fields)
      requires id < |records|
      modifies this
      ensures records == Update(old(records), id, status, f)
    {
      records := records[id := Updated(records[id], status, f)];
    }

    method GenerateForDocument(doc: Uuid, irn: string, answer: Result<EwbResponse, string>)
        returns (r: Result<nat, EwbError>)
      modifies this
      ensures Ended(records, r) == Generate(old(records), doc, irn, answer)
    {
      var existing := Latest(records, doc);
      if existing.Some? && Terminal(records[existing.value].status) { return Ok(existing.value); }
      var id;
      if existing.Some? {
        id := existing.value;
      } else {
        id := Create(NewRecord(doc, AutomaticApi, Queued, Some(irn)));
      }
      UpdateStatus(id, Submitting, NO_FIELDS);
      if answer.Err? {
        UpdateStatus(id, FailedRetryable, ErrorField(answer.error));
        return Err(ProviderFailed);
      }
      UpdateStatus(id, Generated, ResultFields(answer.value, None));
      return Ok(id);
    }

    method GetOrCreateFreePortalRecord(doc: Uuid, live: Result<Bill, ()>) returns (r: Result<(nat, Bill), EwbError>)
      modifies this
      ensures Ended(records, r) == Capture(old(records), doc, live)
    {
      var existing := Latest(records, doc);
      if existing.Some? {
        var rec := records[existing.value];
        if rec.mode.FreePortal? && rec.snapshot.Some? { return Ok((existing.value, rec.snapshot.value)); }
      }
      if live.Err? { return Err(LiveDataFailed); }
      var id := Create(NewRecord(doc, FreePortal, NotRequired, None));
      UpdateStatus(id, NotRequired, SnapshotField(live.value));
      return Ok((id, live.value));
    }

    method EvaluateEligibility(doc: Uuid, live: Result<Bill, ()>, req: Result<Requirement, ()>)
        returns (r: Result<Requirement, EwbError>)
      modifies this
      ensures Ended(records, r) == Evaluate(old(records), doc, live, req)
    {
      var captured := GetOrCreateFreePortalRecord(doc, live);
      if captured.Err? { return Err(captured.error); }
      if req.Err? { return Err(RulesFailed); }
      var id := captured.value.0;
      if !Terminal(records[id].status) || records[id].status.NotRequired? {
        UpdateStatus(id, EligibilityStatus(req.value), NO_FIELDS);
      }
      return Ok(req.value);
    }

    method UpdateTransportInfo(doc: Uuid, p: TransportInfo, live: Result<Bill, ()>, req: Result<Requirement, ()>)
      returns (r: Result<Requirement, EwbError>)
      modifies this
      ensures Ended(records, r) == UpdateTransport(old(records), doc, p, live, req)
    {
      var found := Latest(records, doc);
      if found.None? { return Err(NotFound); }
      var rec := records[found.value];
      if rec.snapshot.None? { return Err(NoSnapshot); }
      var bill := rec.snapshot.value;
      if p.vehicle.Some? { bill := bill.(transport := bill.transport.(vehicle := p.vehicle.value)); }
      if p.transporterId.Some? { bill := bill.(transport := bill.transport.(transporterId := p.transporterId.value)); }
      if p.transporterName.Some? {
        bill := bill.(transport := bill.transport.(transporterName := p.transporterName.value));
      }
      if p.distance.Some? { bill := bill.(transport := bill.transport.(distance := p.distance.value)); }
      UpdateStatus(found.value, rec.status, SnapshotField(bill));
      r := EvaluateEligibility(doc, live, req);
    }

    method PrepareFreePortalUpload(doc: Uuid, live: Result<Bill, ()>, req: Result<Requirement, ()>,
                                   file: Result<string, string>)
      returns (r: Result<string, EwbError>)
      modifies this
      ensures Ended(records, r) == Prepare(old(records), doc, live, req, file)
    {
      var evaluated := EvaluateEligibility(doc, live, req);
      if evaluated.Err? { return Err(evaluated.error); }
      if evaluated.value.RuleNotRequired? { return Err(NotEligible); }
      if !evaluated.value.RuleReady? { return Err(MissingInformation); }
      var found := Latest(records, doc);
      if found.None? { return Err(NotFound); }
      UpdateStatus(found.value, Preparing, NO_FIELDS);
      if file.Err? {
        UpdateStatus(found.value, NeedsInformation, ErrorField(file.error));
        return Err(ExportFailed);
      }
      UpdateStatus(found.value, AwaitingPortalCompletion, FileField(file.value));
      return Ok(file.value);
    }

    method RecordManualResult(doc: Uuid, result: EwbResponse) returns (r: Result<nat, EwbError>)
      modifies this
      ensures Ended(records, r) == RecordManual(old(records), doc, result)
    {
      var found := Latest(records, doc);
      if found.None? { return Err(NotFound); }
      UpdateStatus(found.value, Generated, ResultFields(result, Some(ManualPortal)));
      return Ok(found.value);
    }

    method ImportAndVerifyResult(doc: Uuid, claim: Claim, result: EwbResponse) returns (r: Result<nat, EwbError>)
      modifies this
      ensures Ended(records, r) == Import(old(records), doc, claim, result)
    {
      var found := Latest(records, doc);
      if found.None? { return Err(NotFound); }
      if records[found.value].snapshot.None? { return Err(NoSnapshot); }
      var bill := records[found.value].snapshot.value;
      if claim.invoiceNumber != bill.invoiceNumber || claim.invoiceDate != bill.invoiceDate
         || claim.supplierGstin != bill.supplierGstin || claim.documentType != bill.documentType {
        return Err(ResultMismatch);
      }
      UpdateStatus(found.value, Generated, ResultFields(result, Some(ImportedFile)));
      return Ok(found.value);
    }

    method Close(id: int, role: Role) returns (r: Result<(), EwbError>)
      modifies this
      ensures Ended(records, r) == CloseRecord(old(records), id, role)
    {
      if role.UnknownRole? { return Err(InvalidCloseRole); }
      if !(0 <= id < |records|) { return Err(NotFound); }
      UpdateStatus(id, Closed, CloserField(role));
      return Ok(());
    }

    method Cancel(doc: Uuid, reason: string, accepted: bool) returns (r: Result<(), EwbError>)
      modifies this
      ensures Ended(records, r) == CancelBill(old(records), doc, reason, accepted)
    {
      var found := Latest(records, doc);
      if found.None? { return Err(NotFound); }
      if !records[found.value].status.Generated? || records[found.value].ewbNumber.None? { return Err(NotGenerated); }
      if !accepted { return Err(ProviderFailed); }
      UpdateStatus(found.value, Cancelled, ReasonField(reason));
      return Ok(());
    }
  }
}
