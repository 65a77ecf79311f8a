/** The status enumeration of types/status.ts: the string literals a record's `status` holds. */
module Status {
  import opened Wrappers
  import Text

  datatype StatusType =
    | Pending | Active | Inactive | Incomplete | Error | Approved
    | Rejected | Draft | Scheduled | Completed | Overdue | Reversed

  /** `PaymentStatus = StatusType | 'complete'`. */
  datatype PaymentStatus = Of(status: StatusType) | Complete

  /** The literal a value of the union type is at run time; every literal is lower case. */
  function StatusName(s: StatusType): (r: string)
    ensures r != [] && Text.IsLower(r)
  {
    match s
    case Pending => "pending"
    case Active => "active"
    case Inactive => "inactive"
    case Incomplete => "incomplete"
    case Error => "error"
    case Approved => "approved"
    case Rejected => "rejected"
    case Draft => "draft"
    case Scheduled => "scheduled"
    case Completed => "completed"
    case Overdue => "overdue"
    case Reversed => "reversed"
  }

  function PaymentStatusName(s: PaymentStatus): (r: string)
    ensures r != [] && Text.IsLower(r)
  {
    match s
    case Of(t) => StatusName(t)
    case Complete => "complete"
  }

  /** Reads a literal back; anything else is not a status. */
  function ParseStatus(name: string): Option<StatusType>
  {
    if name == "pending" then Some(Pending)
    else if name == "active" then Some(Active)
    else if name == "inactive" then Some(Inactive)
    else if name == "incomplete" then Some(Incomplete)
    else if name == "error" then Some(Error)
    else if name == "approved" then Some(Approved)
    else if name == "rejected" then Some(Rejected)
    else if name == "draft" then Some(Draft)
    else if name == "scheduled" then Some(Scheduled)
    else if name == "completed" then Some(Completed)
    else if name == "overdue" then Some(Overdue)
    else if name == "reversed" then Some(Reversed)
    else None
  }

  /** Every status reads back as itself, and only a status literal parses. */
  lemma ParseStatusName(s: StatusType, name: string)
    ensures ParseStatus(StatusName(s)) == Some(s)
    ensures ParseStatus(name) == Some(s) ==> name == StatusName(s)
  {
  }

  /** Distinct statuses have distinct literals, so comparing literals compares statuses. */
  lemma StatusNameInjective(a: StatusType, b: StatusType)
    ensures StatusName(a) == StatusName(b) <==> a == b
  {
    ParseStatusName(a, StatusName(b));
  }
}
