/**
 * The status badge of the transaction history (src/components/Transactions.jsx):
 * `getStatusClass` maps a payment status, in any letter case, to its style class.
 */
module Transactions {
  import opened Common
  import opened Text
  import opened PaymentModel

  /** The style classes of the five statuses, and the empty class. */
  datatype StatusClass = PendingClass | ApprovedClass | RejectedClass | SubmittedClass | InitializedClass | NoClass

  /** The class a schema status is shown with. */
  function ClassOf(s: Status): (c: StatusClass)
    ensures c != NoClass
  {
    match s
    case Pending => PendingClass
    case Approved => ApprovedClass
    case Rejected => RejectedClass
    case Submitted => SubmittedClass
    case Initialized => InitializedClass
  }

  /**
   * `getStatusClass(status)`: `status?.toLowerCase()` switched over the five
   * status names; an absent status and any other text give the empty class.
   */
  function GetStatusClass(status: Option<string>): (c: StatusClass)
    ensures status.None? ==> c == NoClass
    ensures status.Some? && ParseStatus(Lower(status.value)).Some? ==> c == ClassOf(ParseStatus(Lower(status.value)).value)
    ensures status.Some? && ParseStatus(Lower(status.value)).None? ==> c == NoClass
  {
    if status.None? then NoClass
    else
      var key := Lower(status.value);
      if key == "pending" then PendingClass
      else if key == "approved" then ApprovedClass
      else if key == "rejected" then RejectedClass
      else if key == "submitted" then SubmittedClass
      else if key == "initialized" then InitializedClass
      else NoClass
  }

  /** Different statuses get different classes. */
  lemma ClassOfInjective(s: Status, t: Status)
    ensures ClassOf(s) == ClassOf(t) <==> s == t
  {
  }

  /** Letter case does not matter: a status and its upper- or lower-cased forms get the same class. */
  lemma {:induction false} CaseInsensitive(s: string)
    ensures GetStatusClass(Some(Upper(s))) == GetStatusClass(Some(s))
    ensures GetStatusClass(Some(Lower(s))) == GetStatusClass(Some(s))
  {
    LowerUpper(s);
    LowerIdempotent(s);
  }

  /** The schema's status names are already lower case. */
  lemma {:induction false} StatusNameLower(s: Status)
    ensures Lower(StatusName(s)) == StatusName(s)
  {
    var n := StatusName(s);
    forall i | 0 <= i < |n| ensures !IsAsciiUpper(n[i]) {
      StatusNameChars(s, i);
    }
    LowerFixed(n);
  }

  /** No status name has an upper-case letter. */
  lemma StatusNameChars(s: Status, i: nat)
    requires i < |StatusName(s)|
    ensures !IsAsciiUpper(StatusName(s)[i])
  {
  }

  /** Each of the five statuses, written as the schema writes it, gets its own class. */
  lemma {:induction false} EveryStatusHasItsClass(s: Status)
    ensures GetStatusClass(Some(StatusName(s))) == ClassOf(s)
  {
    StatusNameLower(s);
    StatusNameRoundTrip(s);
  }

  /** A text that is no status name in any letter case gets the empty class. */
  lemma {:induction false} OtherTextNoClass(text: string)
    requires forall s: Status :: StatusName(s) != Lower(text)
    ensures GetStatusClass(Some(text)) == NoClass
  {
  }
}
