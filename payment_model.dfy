/**
 * The Payment schema (banking-api/models/Payment.js): the `type` and `status`
 * enumerations with their defaults, the required fields, and what saving a
 * draft document through the schema yields.
 */
module PaymentModel {
  import opened Common

  /** The `type` enumeration: "payment" or "transfer". */
  datatype PaymentType = Payment | Transfer

  /** The `status` enumeration, in the schema's order. */
  datatype Status = Initialized | Submitted | Approved | Rejected | Pending

  /** A stored payment document. `kind` is the schema's `type` path. */
  datatype PaymentRecord = PaymentRecord(
    id: ObjectId,
    user: ObjectId,
    amount: int,
    currency: string,
    provider: Option<string>,
    accountNumber: string,
    beneficiaryName: Option<string>,
    bankName: Option<string>,
    swiftCode: Option<string>,
    reference: Option<string>,
    linkedPayment: Option<ObjectId>,
    kind: PaymentType,
    status: Status)

  function TypeName(t: PaymentType): string {
    match t
    case Payment => "payment"
    case Transfer => "transfer"
  }

  function StatusName(s: Status): string {
    match s
    case Initialized => "initialized"
    case Submitted => "submitted"
    case Approved => "approved"
    case Rejected => "rejected"
    case Pending => "pending"
  }

  /** The enum validator of `type`: only the two listed names are accepted. */
  function ParseType(name: string): (r: Option<PaymentType>)
    ensures r.Some? ==> TypeName(r.value) == name
    ensures r.None? <==> forall t: PaymentType :: TypeName(t) != name
  {
    if name == "payment" then Some(Payment)
    else if name == "transfer" then Some(Transfer)
    else None
  }

  /** The enum validator of `status`: only the five listed names are accepted. */
  function ParseStatus(name: string): (r: Option<Status>)
    ensures r.Some? ==> StatusName(r.value) == name
    ensures r.None? <==> forall s: Status :: StatusName(s) != name
  {
    if name == "initialized" then Some(Initialized)
    else if name == "submitted" then Some(Submitted)
    else if name == "approved" then Some(Approved)
    else if name == "rejected" then Some(Rejected)
    else if name == "pending" then Some(Pending)
    else None
  }

  /** Every status name parses back to its status, and distinct statuses have distinct names. */
  lemma StatusNameRoundTrip(s: Status)
    ensures ParseStatus(StatusName(s)) == Some(s)
  {
    match s
    case Initialized =>
    case Submitted =>
    case Approved =>
    case Rejected =>
    case Pending =>
  }

  lemma TypeNameRoundTrip(t: PaymentType)
    ensures ParseType(TypeName(t)) == Some(t)
  {
    match t
    case Payment =>
    case Transfer =>
  }

  /**
   * The fields of a document before validation, as the caller supplies them.
   * `kind` and `status` are the raw strings given for the enum paths.
   */
  datatype PaymentDraft = PaymentDraft(
    user: Option<ObjectId>,
    amount: Option<int>,
    currency: Option<string>,
    provider: Option<string>,
    accountNumber: Option<string>,
    beneficiaryName: Option<string>,
    bankName: Option<string>,
    swiftCode: Option<string>,
    reference: Option<string>,
    linkedPayment: Option<ObjectId>,
    kind: Option<string>,
    status: Option<string>)

  /** An enum path with a default: absent takes the default; a given value must be listed. */
  predicate TypeAcceptable(kind: Option<string>) {
    kind.None? || ParseType(kind.value).Some?
  }

  predicate StatusAcceptable(status: Option<string>) {
    status.None? || ParseStatus(status.value).Some?
  }

  /** Mongoose's `required`: a missing value fails, and so does the empty string. */
  predicate DraftValid(d: PaymentDraft) {
    && d.user.Some?
    && d.amount.Some?
    && Present(d.currency)
    && Present(d.accountNumber)
    && TypeAcceptable(d.kind)
    && StatusAcceptable(d.status)
  }

  /** What every stored payment satisfies: its required strings are non-empty. */
  predicate WellFormed(p: PaymentRecord) {
    p.currency != "" && p.accountNumber != ""
  }

  /** The schema paths a validation error can name. */
  datatype SchemaPath = UserPath | AmountPath | CurrencyPath | AccountNumberPath | TypePath | StatusPath

  /**
   * The paths that fail validation. Mongoose reports all of them at once, as an
   * object keyed by path, so the order is immaterial.
   */
  function FailingPaths(d: PaymentDraft): (r: set<SchemaPath>)
    ensures r == {} <==> DraftValid(d)
    ensures UserPath in r <==> d.user.None?
    ensures AmountPath in r <==> d.amount.None?
    ensures CurrencyPath in r <==> !Present(d.currency)
    ensures AccountNumberPath in r <==> !Present(d.accountNumber)
    ensures TypePath in r <==> !TypeAcceptable(d.kind)
    ensures StatusPath in r <==> !StatusAcceptable(d.status)
  {
    (if d.user.None? then {UserPath} else {})
    + (if d.amount.None? then {AmountPath} else {})
    + (if !Present(d.currency) then {CurrencyPath} else {})
    + (if !Present(d.accountNumber) then {AccountNumberPath} else {})
    + (if !TypeAcceptable(d.kind) then {TypePath} else {})
    + (if !StatusAcceptable(d.status) then {StatusPath} else {})
  }

  /**
   * Saving a draft under `id`: the validation error lists every failing path;
   * otherwise the record carries the draft's fields, with `type` defaulting to
   * "payment" and `status` to "initialized".
   */
  function ApplySchema(id: ObjectId, d: PaymentDraft): (r: Result<PaymentRecord, set<SchemaPath>>)
    ensures r.Ok? <==> DraftValid(d)
    ensures r.Err? ==> r.error == FailingPaths(d) && r.error != {}
    ensures r.Ok? ==> WellFormed(r.value) && r.value.id == id
    ensures r.Ok? ==> r.value.kind == (if d.kind.None? then Payment else ParseType(d.kind.value).value)
    ensures r.Ok? ==> r.value.status == (if d.status.None? then Initialized else ParseStatus(d.status.value).value)
    ensures r.Ok? ==> && Some(r.value.user) == d.user && Some(r.value.amount) == d.amount
                      && Some(r.value.currency) == d.currency && Some(r.value.accountNumber) == d.accountNumber
    ensures r.Ok? ==> && r.value.provider == d.provider && r.value.beneficiaryName == d.beneficiaryName
                      && r.value.bankName == d.bankName && r.value.swiftCode == d.swiftCode
                      && r.value.reference == d.reference && r.value.linkedPayment == d.linkedPayment
  {
    if !DraftValid(d) then Err(FailingPaths(d))
    else
      Ok(PaymentRecord(
        id, d.user.value, d.amount.value, d.currency.value, d.provider, d.accountNumber.value,
        d.beneficiaryName, d.bankName, d.swiftCode, d.reference, d.linkedPayment,
        if d.kind.None? then Payment else ParseType(d.kind.value).value,
        if d.status.None? then Initialized else ParseStatus(d.status.value).value))
  }

  /** A draft that names neither `type` nor `status` is stored as an initialized ordinary payment. */
  lemma DefaultsApply(id: ObjectId, d: PaymentDraft)
    requires d.user.Some? && d.amount.Some? && Present(d.currency) && Present(d.accountNumber)
    requires d.kind.None? && d.status.None?
    ensures ApplySchema(id, d).Ok?
    ensures ApplySchema(id, d).value.kind == Payment && ApplySchema(id, d).value.status == Initialized
  {
  }

  /** Any draft whose status is not one of the five names is refused, whatever else it holds. */
  lemma UnlistedStatusRefused(id: ObjectId, d: PaymentDraft)
    requires d.status.Some? && forall s: Status :: StatusName(s) != d.status.value
    ensures ApplySchema(id, d).Err? && StatusPath in ApplySchema(id, d).error
  {
  }
}
