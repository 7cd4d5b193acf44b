/**
 * The records and enumerations shared by the backend and the frontend
 * (backend/app/models.py). Each `Literal[...]` field becomes a datatype; the
 * wire spelling of every constructor is given by a `...Name` function, and the
 * `Parse...` functions model the literal validation done when a record is built.
 */
module Models {
  import opened Wrappers

  datatype Severity = ErrorLevel | WarningLevel

  datatype Priority = Critical | High | Medium | Low

  datatype Status = PendingApproval | Approved | Rejected | InReview

  datatype Compliance = Compliant | Warning | NonCompliant

  function SeverityName(s: Severity): string
  {
    match s
    case ErrorLevel => "error"
    case WarningLevel => "warning"
  }

  function PriorityName(p: Priority): string
  {
    match p
    case Critical => "Critical"
    case High => "High"
    case Medium => "Medium"
    case Low => "Low"
  }

  function StatusName(s: Status): string
  {
    match s
    case PendingApproval => "Pending Approval"
    case Approved => "Approved"
    case Rejected => "Rejected"
    case InReview => "In Review"
  }

  function ComplianceName(c: Compliance): string
  {
    match c
    case Compliant => "compliant"
    case Warning => "warning"
    case NonCompliant => "non-compliant"
  }

  /** Validation of a `priority` literal: exactly the four spellings are accepted. */
  function ParsePriority(s: string): (r: Option<Priority>)
    ensures forall p :: r == Some(p) <==> PriorityName(p) == s
  {
    if s == "Critical" then Some(Critical)
    else if s == "High" then Some(High)
    else if s == "Medium" then Some(Medium)
    else if s == "Low" then Some(Low)
    else None
  }

  /** Validation of a `status` literal: exactly the four spellings are accepted. */
  function ParseStatus(s: string): (r: Option<Status>)
    ensures forall st :: r == Some(st) <==> StatusName(st) == s
  {
    if s == "Pending Approval" then Some(PendingApproval)
    else if s == "Approved" then Some(Approved)
    else if s == "Rejected" then Some(Rejected)
    else if s == "In Review" then Some(InReview)
    else None
  }

  /** Outcome of one compliance rule for one ticket. */
  datatype ValidationResult = ValidationResult(
    rule: string,
    passed: bool,
    severity: Severity,
    message: string,
    suggestion: string)

  /**
   * A change ticket as served by the API. The four supporting artifacts are
   * optional and absent (`None`) unless the raw record supplies them.
   */
  datatype ChangeTicket = ChangeTicket(
    id: string,
    number: string,
    shortDescription: string,
    description: string,
    requestedBy: string,
    assignedTo: string,
    priority: Priority,
    status: Status,
    createdAt: string,
    scheduledStartDate: string,
    scheduledEndDate: string,
    approvalChain: Option<seq<string>>,
    testingEvidence: Option<string>,
    rollbackPlan: Option<string>,
    changeWindow: Option<string>,
    complianceStatus: Compliance,
    validationResults: seq<ValidationResult>)

  datatype TicketListResponse = TicketListResponse(
    tickets: seq<ChangeTicket>,
    total: int,
    page: int,
    pageSize: int)

  datatype DashboardStats = DashboardStats(
    totalTickets: int,
    pendingApproval: int,
    compliant: int,
    warning: int,
    nonCompliant: int,
    byPriority: map<string, int>,
    byAssignee: map<string, int>)

  /** Python truthiness of an optional string: present and non-empty. */
  predicate Truthy(v: Option<string>)
  {
    v.Some? && v.value != ""
  }
}
