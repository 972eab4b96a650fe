/**
 * The payment routes (banking-api/routes/paymentRoutes.js): the SWIFT-code
 * directory used to back-fill bank names, the two filtered listings, and the
 * two routes that overwrite a payment's status in place.
 */
module PaymentRoutes {
  import opened Common
  import opened Text
  import opened PaymentModel

  /** `swiftMap`: SWIFT code to bank name. */
  const SwiftMap: map<string, string> := map[
    "ABSAZAJJXXX" := "Absa Bank Limited",
    "AFRCZAJJXXX" := "African Bank Limited",
    "BIDBZAJJXXX" := "Bidvest Bank Limited",
    "CABLZAJJXXX" := "Capitec Bank Limited",
    "DISCZAJJXXX" := "Discovery Bank Limited",
    "FIRNZAJJXXX" := "First National Bank",
    "FINBZAJJXXX" := "Finbond Bank Limited",
    "GRIDZAJJXXX" := "Grindrod Bank Limited",
    "IVESZAJJXXX" := "Investec Bank Limited",
    "LISAZAJJXXX" := "Mercantile Bank Limited",
    "NEDSZAJJXXX" := "Nedbank Limited",
    "SBZAZAJJXXX" := "Standard Bank of South Africa"
  ]

  /** The placeholder shown when no bank name can be found (an em dash). */
  const NoBankName: string := "\U{2014}"

  /** The directory key a stored SWIFT code is looked up under. */
  function SwiftKey(swiftCode: Option<string>): Option<string> {
    if swiftCode.Some? then Some(Upper(Trim(swiftCode.value))) else None
  }

  /**
   * `p.bankName || swiftMap[p.swiftCode?.trim().toUpperCase()] || "—"`.
   * An absent SWIFT code looks up the key "undefined", which is not in the
   * directory; an upper-cased key never names an inherited object property.
   */
  function Enrich(p: PaymentRecord): (r: PaymentRecord)
    ensures Present(r.bankName)
    ensures Present(p.bankName) ==> r.bankName == p.bankName
    ensures !Present(p.bankName) && SwiftKey(p.swiftCode).Some? && SwiftKey(p.swiftCode).value in SwiftMap ==>
              r.bankName == Some(SwiftMap[SwiftKey(p.swiftCode).value])
    ensures !Present(p.bankName) && (SwiftKey(p.swiftCode).None? || SwiftKey(p.swiftCode).value !in SwiftMap) ==>
              r.bankName == Some(NoBankName)
    ensures r.(bankName := p.bankName) == p
  {
    var key := SwiftKey(p.swiftCode);
    var name :=
      if Present(p.bankName) then p.bankName.value
      else if key.Some? && key.value in SwiftMap then DirectoryNamePresent(key.value); SwiftMap[key.value]
      else NoBankName;
    p.(bankName := Some(name))
  }

  /** Enriching twice is enriching once. */
  lemma EnrichIdempotent(p: PaymentRecord)
    ensures Enrich(Enrich(p)) == Enrich(p)
  {
  }

  /** The directory's name for a known code is non-empty. */
  lemma DirectoryNamePresent(code: string)
    requires code in SwiftMap
    ensures SwiftMap[code] != ""
  {
  }

  /** Every name in the directory is non-empty, so a known code always wins over the placeholder. */
  lemma DirectoryNamesPresent()
    ensures forall code :: code in SwiftMap ==> SwiftMap[code] != ""
  {
    forall code | code in SwiftMap ensures SwiftMap[code] != "" {
      DirectoryNamePresent(code);
    }
  }

  /** The store: `_id` to payment document. */
  type Records = map<ObjectId, PaymentRecord>

  /** Each document is stored under its own id. */
  ghost predicate KeyedById(records: Records) {
    forall id :: id in records ==> records[id].id == id
  }

  /** GET /pending: the pending transfers, each with its bank name back-filled. */
  function PendingTransfers(records: Records): (r: Records)
    ensures forall id :: id in r <==> id in records && records[id].status == Pending && records[id].kind == Transfer
    ensures forall id :: id in r ==> r[id] == Enrich(records[id])
  {
    map id | id in records && records[id].status == Pending && records[id].kind == Transfer :: Enrich(records[id])
  }

  /** GET /submitted: the submitted records of either type, each with its bank name back-filled. */
  function SubmittedRecords(records: Records): (r: Records)
    ensures forall id :: id in r <==> id in records && records[id].status == Submitted
    ensures forall id :: id in r ==> r[id] == Enrich(records[id])
  {
    map id | id in records && records[id].status == Submitted :: Enrich(records[id])
  }

  /** No record is listed by both routes. */
  lemma ListingsDisjoint(records: Records)
    ensures PendingTransfers(records).Keys !! SubmittedRecords(records).Keys
  {
  }

  /** `validStatuses`: the values PATCH /:id/status accepts. "initialized" is not among them. */
  const ValidStatuses: seq<string> := ["pending", "approved", "rejected", "submitted"]

  /** The response of the two status routes. */
  datatype UpdateOutcome = Updated(payment: PaymentRecord, message: string) | InvalidStatus | NotFound {
    function HttpStatus(): int {
      match this
      case Updated(_, _) => 200
      case InvalidStatus => 400
      case NotFound => 404
    }
    function Message(): string {
      match this
      case Updated(_, message) => message
      case InvalidStatus => "Invalid status value."
      case NotFound => "Payment not found."
    }
  }

  lemma ValidStatusesParse()
    ensures forall s :: s in ValidStatuses ==> ParseStatus(s).Some? && ParseStatus(s).value != Initialized
  {
  }

  /**
   * PATCH /:id/status. The whitelist is checked first, whatever the id; then
   * `findByIdAndUpdate` overwrites the status of that one record, from any
   * current status.
   */
  function StatusUpdate(records: Records, id: ObjectId, requested: Option<string>): (res: (UpdateOutcome, Records))
    ensures requested.None? || requested.value !in ValidStatuses ==> res == (InvalidStatus, records)
    ensures requested.Some? && requested.value in ValidStatuses && id !in records ==> res == (NotFound, records)
    ensures res.0.Updated? <==> requested.Some? && requested.value in ValidStatuses && id in records
    ensures res.0.Updated? ==> && res.0.message == "Status updated."
                               && StatusName(res.0.payment.status) == requested.value
                               && res.0.payment.(status := records[id].status) == records[id]
                               && res.1 == records[id := res.0.payment]
    ensures res.1.Keys == records.Keys
    ensures forall k :: k in records && k != id ==> res.1[k] == records[k]
    ensures KeyedById(records) ==> KeyedById(res.1)
  {
    if requested.None? || requested.value !in ValidStatuses then (InvalidStatus, records)
    else if id !in records then (NotFound, records)
    else
      ValidStatusesParse();
      var p := records[id].(status := ParseStatus(requested.value).value);
      (Updated(p, "Status updated."), records[id := p])
  }

  /** PATCH /:id/reject: the status becomes "rejected" whatever it was. */
  function RejectUpdate(records: Records, id: ObjectId): (res: (UpdateOutcome, Records))
    ensures id !in records ==> res == (NotFound, records)
    ensures id in records ==> && res.0 == Updated(records[id].(status := Rejected), "Payment rejected.")
                              && res.1 == records[id := records[id].(status := Rejected)]
    ensures res.1.Keys == records.Keys
    ensures KeyedById(records) ==> KeyedById(res.1)
  {
    if id !in records then (NotFound, records)
    else
      var p := records[id].(status := Rejected);
      (Updated(p, "Payment rejected."), records[id := p])
  }

  /** "initialized" is refused with 400 even for an existing record, and nothing changes. */
  lemma InitializedRefused(records: Records, id: ObjectId)
    ensures StatusUpdate(records, id, Some("initialized")) == (InvalidStatus, records)
    ensures StatusUpdate(records, id, Some("initialized")).0.HttpStatus() == 400
  {
  }

  /** The reject route has the same effect on the store as a status update to "rejected". */
  lemma RejectIsStatusUpdate(records: Records, id: ObjectId)
    ensures RejectUpdate(records, id).1 == StatusUpdate(records, id, Some("rejected")).1
  {
  }

  /** Rejecting twice leaves the store as rejecting once, and the second call still succeeds. */
  lemma RejectIdempotent(records: Records, id: ObjectId)
    ensures RejectUpdate(RejectUpdate(records, id).1, id).1 == RejectUpdate(records, id).1
    ensures RejectUpdate(RejectUpdate(records, id).1, id).0 == RejectUpdate(records, id).0
  {
  }

  /** After a reject the record appears in neither listing. */
  lemma RejectedLeavesListings(records: Records, id: ObjectId)
    ensures id !in PendingTransfers(RejectUpdate(records, id).1)
    ensures id !in SubmittedRecords(RejectUpdate(records, id).1)
  {
  }

  /** Setting an existing record to "submitted" lists it under /submitted and no longer under /pending. */
  lemma SubmittedMovesListing(records: Records, id: ObjectId)
    requires id in records
    ensures id in SubmittedRecords(StatusUpdate(records, id, Some("submitted")).1)
    ensures id !in PendingTransfers(StatusUpdate(records, id, Some("submitted")).1)
  {
  }

  /** The payment collection, updated in place by the two PATCH routes. */
  class PaymentStore {
    var records: Records

    ghost predicate Valid()
      reads this
    {
      KeyedById(records)
    }

    constructor (records: Records)
      requires KeyedById(records)
      ensures Valid() && this.records == records
    {
      this.records := records;
    }

    /** PATCH /:id/status */
    method UpdateStatus(id: ObjectId, requested: Option<string>) returns (outcome: UpdateOutcome)
      requires Valid()
      modifies this
      ensures Valid()
      ensures (outcome, records) == StatusUpdate(old(records), id, requested)
    {
      if requested.None? || requested.value !in ValidStatuses {
        return InvalidStatus;
      }
      if id !in records {
        return NotFound;
      }
      ValidStatusesParse();
      var updated := records[id].(status := ParseStatus(requested.value).value);
      records := records[id := updated];
      outcome := Updated(updated, "Status updated.");
    }

    /** PATCH /:id/reject */
    method Reject(id: ObjectId) returns (outcome: UpdateOutcome)
      requires Valid()
      modifies this
      ensures Valid()
      ensures (outcome, records) == RejectUpdate(old(records), id)
    {
      if id !in records {
        return NotFound;
      }
      var updated := records[id].(status := Rejected);
      records := records[id := updated];
      outcome := Updated(updated, "Payment rejected.");
    }
  }
}
