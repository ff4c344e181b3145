/**
 * The `manpower.request` record and its reject wizard (models/manpower_request.py):
 * the fields of a request, the workflow actions that overwrite them, the colour
 * lookups, the stored day count, and the naming rule applied on create.
 *
 * Environment values the source reads from the ORM (the acting user, the clock,
 * today's date in the user's timezone and on the server, the next value of the
 * `manpower.request` sequence, the company currency) are parameters here.
 */
module ManpowerRequests {
  import opened Wrappers

  type RecordId = nat
  type UserId = nat
  type DepartmentId = nat
  type CurrencyId = nat
  /** A calendar date, as a day number; subtracting two gives the days between them. */
  type Date = int
  /** An instant (the approval timestamp). */
  type DateTime = int

  // ---------------------------------------------------------------------------
  // Selection values
  // ---------------------------------------------------------------------------

  /** `request_status`: draft, for_approval, approved, rejected, on_hold. */
  datatype Status = Draft | ForApproval | Approved | Rejected | OnHold

  /** `urgency_level`: low, medium, high, critical. */
  datatype Urgency = Low | Medium | High | Critical

  /** `request_type`: new_position, replacement, additional_headcount, project_based. */
  datatype RequestType = NewPosition | Replacement | AdditionalHeadcount | ProjectBased

  // ---------------------------------------------------------------------------
  // The record
  // ---------------------------------------------------------------------------

  /** The optional descriptive fields; no action reads or writes them. */
  datatype Details = Details(
    jobDescription: Option<string>,
    requiredSkills: Option<string>,
    experienceRequired: Option<string>,
    educationRequired: Option<string>,
    expectedStartDate: Option<Date>,
    budgetAllocated: Option<int>,
    currency: Option<CurrencyId>,
    notes: Option<string>)

  /**
   * The stored fields of one request. Fields declared `required=True` hold a value;
   * the others are optional. `dateRequested` is optional because the day count
   * handles a missing date.
   */
  datatype Request = Request(
    name: string,
    dateRequested: Option<Date>,
    durationDays: int,
    requestType: RequestType,
    status: Status,
    urgency: Urgency,
    requestedBy: UserId,
    department: DepartmentId,
    positionTitle: string,
    justification: string,
    details: Details,
    approvedBy: Option<UserId>,
    approvalDate: Option<DateTime>,
    rejectionReason: Option<string>)

  /**
   * The request with its four workflow fields (status, approver, approval date,
   * rejection reason) blanked: two requests with equal `WithoutWorkflow` differ in
   * those four fields at most.
   */
  function WithoutWorkflow(v: Request): Request {
    v.(status := Draft, approvedBy := None, approvalDate := None, rejectionReason := None)
  }

  /**
   * An approved request names its approver and approval date, and a rejected one
   * carries its reason. Every action keeps this (see `Apply`).
   */
  predicate DecisionRecorded(v: Request) {
    (v.status == Approved ==> v.approvedBy.Some? && v.approvalDate.Some?) &&
    (v.status == Rejected ==> v.rejectionReason.Some?)
  }

  // ---------------------------------------------------------------------------
  // Workflow actions
  // ---------------------------------------------------------------------------

  /**
   * The actions that write the workflow fields. `Reject` is the write done by the
   * reject wizard; the request's own reject button writes nothing.
   */
  datatype Action =
    | SubmitForApproval
    | Approve(user: UserId, now: DateTime)
    | Hold
    | ResetToDraft
    | Reject(reason: string)

  /** The status an action writes. None of the actions looks at the current status. */
  function TargetStatus(a: Action): Status {
    match a
    case SubmitForApproval => ForApproval
    case Approve(_, _) => Approved
    case Hold => OnHold
    case ResetToDraft => Draft
    case Reject(_) => Rejected
  }

  /** The values one action writes over a request (the `self.write({...})` of each action). */
  function Apply(v: Request, a: Action): (r: Request)
    ensures r.status == TargetStatus(a)
    ensures WithoutWorkflow(r) == WithoutWorkflow(v)
    ensures DecisionRecorded(v) ==> DecisionRecorded(r)
    ensures a.ResetToDraft? ==> r.approvedBy.None? && r.approvalDate.None? && r.rejectionReason.None?
    ensures !a.Approve? && !a.ResetToDraft? ==> r.approvedBy == v.approvedBy && r.approvalDate == v.approvalDate
    ensures !a.Reject? && !a.ResetToDraft? ==> r.rejectionReason == v.rejectionReason
    ensures a.Approve? ==> r.approvedBy == Some(a.user) && r.approvalDate == Some(a.now)
    ensures a.Reject? ==> r.rejectionReason == Some(a.reason)
  {
    match a
    case SubmitForApproval => v.(status := ForApproval)
    case Approve(user, now) => v.(status := Approved, approvedBy := Some(user), approvalDate := Some(now))
    case Hold => v.(status := OnHold)
    case ResetToDraft => v.(status := Draft, approvedBy := None, approvalDate := None, rejectionReason := None)
    case Reject(reason) => v.(status := Rejected, rejectionReason := Some(reason))
  }

  /** What an action hands back to the web client. */
  datatype WindowAction =
    | OpenRejectWizard(requestId: RecordId)
    | CloseWindow

  // ---------------------------------------------------------------------------
  // Colour lookups
  // ---------------------------------------------------------------------------

  /** The urgency whose colour index is `c`, if any. */
  function UrgencyOfColor(c: int): Option<Urgency> {
    if c == 0 then Some(Low)
    else if c == 1 then Some(Medium)
    else if c == 2 then Some(High)
    else if c == 3 then Some(Critical)
    else None
  }

  /**
   * The colour index of an urgency level; `None` (the field is unset, or `self`
   * is the empty recordset) gets the lookup's default 0.
   */
  function UrgencyColor(level: Option<Urgency>): (c: int)
    ensures 0 <= c <= 3
    ensures level.Some? ==> UrgencyOfColor(c) == level
    ensures level.None? ==> c == 0
  {
    match level
    case Some(Low) => 0
    case Some(Medium) => 1
    case Some(High) => 2
    case Some(Critical) => 3
    case None => 0
  }

  /** The status whose colour index is `c`, if any. */
  function StatusOfColor(c: int): Option<Status> {
    if c == 0 then Some(Draft)
    else if c == 1 then Some(ForApproval)
    else if c == 2 then Some(Approved)
    else if c == 3 then Some(Rejected)
    else if c == 4 then Some(OnHold)
    else None
  }

  /** The colour index of a status, with the lookup's default 0 for `None`. */
  function StatusColor(status: Option<Status>): (c: int)
    ensures 0 <= c <= 4
    ensures status.Some? ==> StatusOfColor(c) == status
    ensures status.None? ==> c == 0
  {
    match status
    case Some(Draft) => 0
    case Some(ForApproval) => 1
    case Some(Approved) => 2
    case Some(Rejected) => 3
    case Some(OnHold) => 4
    case None => 0
  }

  // ---------------------------------------------------------------------------
  // Duration
  // ---------------------------------------------------------------------------

  /**
   * The stored day count of one record: days from the request date to `today`
   * (the server's `date.today()`),
   * negative when the request date lies ahead, 0 when there is no request date.
   */
  function DurationDays(dateRequested: Option<Date>, today: Date): (d: int)
    ensures dateRequested.None? ==> d == 0
    ensures dateRequested.Some? ==> dateRequested.value + d == today
    ensures d < 0 <==> dateRequested.Some? && dateRequested.value > today
  {
    match dateRequested
    case Some(day) => today - day
    case None => 0
  }

  /**
   * `_compute_duration_days`: recompute the stored day count of every record in
   * the set. A record may occur more than once; it then gets the same value again.
   */
  method ComputeDurationDays(records: seq<ManpowerRequest>, today: Date)
    modifies set r | r in records
    ensures forall r :: r in records ==>
      r.View() == old(r.View()).(durationDays := DurationDays(old(r.dateRequested), today))
  {
    var i := 0;
    while i < |records|
      invariant 0 <= i <= |records|
      invariant forall r :: r in records ==>
        r.View() == old(r.View()).(durationDays :=
          if r in records[..i] then DurationDays(old(r.dateRequested), today) else old(r.durationDays))
    {
      var record := records[i];
      if record.dateRequested.Some? {
        record.durationDays := today - record.dateRequested.value;
      } else {
        record.durationDays := 0;
      }
      assert records[..i + 1] == records[..i] + [record];
      i := i + 1;
    }
    assert records[..i] == records;
  }

  // ---------------------------------------------------------------------------
  // Create
  // ---------------------------------------------------------------------------

  /** The translated default name, `_('New')`, taken as the literal text. */
  const NewName: string := "New"

  /**
   * The values dictionary given to `create`; `None` means the key is absent.
   * An absent `details.currency` gets the company currency.
   */
  datatype Vals = Vals(
    name: Option<string>,
    dateRequested: Option<Date>,
    requestType: Option<RequestType>,
    status: Option<Status>,
    urgency: Option<Urgency>,
    requestedBy: Option<UserId>,
    department: Option<DepartmentId>,
    positionTitle: Option<string>,
    justification: Option<string>,
    details: Details,
    approvedBy: Option<UserId>,
    approvalDate: Option<DateTime>,
    rejectionReason: Option<string>)

  /**
   * What `create` reads from its environment. The request date defaults to
   * `fields.Date.context_today`, today in the user's timezone (`userToday`); the
   * stored day count uses `date.today()`, today on the server (`serverToday`).
   * The two differ by a day when the user's midnight and the server's fall apart.
   */
  datatype CreateContext = CreateContext(
    user: UserId,
    userToday: Date,
    serverToday: Date,
    companyCurrency: Option<CurrencyId>,
    nextSequence: Option<string>)

  datatype CreateError =
    | MissingRequiredFields(fields: seq<string>)
    | UndefinedName(identifier: string)

  /**
   * The name `create` stores: a supplied name other than "New" is kept; otherwise
   * the next sequence value, or "New" when the sequence yields nothing (Python's
   * `or` also falls back on an empty string).
   */
  function AssignedName(supplied: Option<string>, next: Option<string>): (n: string)
    ensures supplied.Some? && supplied.value != NewName ==> n == supplied.value
    ensures (supplied.None? || supplied == Some(NewName)) && next.Some? && next.value != "" ==> n == next.value
    ensures (supplied.None? || supplied == Some(NewName)) && (next.None? || next == Some("")) ==> n == NewName
  {
    if supplied.GetOr(NewName) == NewName then
      (if next.Some? && next.value != "" then next.value else NewName)
    else supplied.value
  }

  /** The required fields without a default that `vals` leaves out, in declaration order. */
  function MissingRequired(vals: Vals): (missing: seq<string>)
    ensures missing == [] <==>
      vals.requestType.Some? && vals.urgency.Some? && vals.department.Some? &&
      vals.positionTitle.Some? && vals.justification.Some?
  {
    (if vals.requestType.None? then ["request_type"] else []) +
    (if vals.urgency.None? then ["urgency_level"] else []) +
    (if vals.department.None? then ["department_id"] else []) +
    (if vals.positionTitle.None? then ["position_title"] else []) +
    (if vals.justification.None? then ["justification"] else [])
  }

  /**
   * The record the ORM stores for `vals` (the inherited `create`): field defaults
   * filled in, required fields checked, and the stored day count computed.
   */
  function Stored(vals: Vals, ctx: CreateContext): (r: Result<Request, CreateError>)
    ensures r.Ok? <==> MissingRequired(vals) == []
    ensures r.Err? ==> r.error == MissingRequiredFields(MissingRequired(vals))
    // each key: stored as given when present, its declared default when absent
    ensures r.Ok? ==> r.value.name == vals.name.GetOr(NewName)
    ensures r.Ok? ==> r.value.dateRequested == Some(vals.dateRequested.GetOr(ctx.userToday))
    ensures r.Ok? ==> r.value.status == vals.status.GetOr(Draft)
    ensures r.Ok? ==> r.value.requestedBy == vals.requestedBy.GetOr(ctx.user)
    ensures r.Ok? ==> r.value.details.(currency := vals.details.currency) == vals.details
    ensures r.Ok? && vals.details.currency.Some? ==> r.value.details.currency == vals.details.currency
    ensures r.Ok? && vals.details.currency.None? ==> r.value.details.currency == ctx.companyCurrency
    // required keys without a default, and the workflow keys: stored as given
    ensures r.Ok? ==>
      Some(r.value.requestType) == vals.requestType && Some(r.value.urgency) == vals.urgency &&
      Some(r.value.department) == vals.department && Some(r.value.positionTitle) == vals.positionTitle &&
      Some(r.value.justification) == vals.justification
    ensures r.Ok? ==>
      r.value.approvedBy == vals.approvedBy && r.value.approvalDate == vals.approvalDate &&
      r.value.rejectionReason == vals.rejectionReason
    // the stored day count
    ensures r.Ok? ==> r.value.durationDays == DurationDays(r.value.dateRequested, ctx.serverToday)
    ensures r.Ok? && vals.dateRequested.None? ==> r.value.durationDays == ctx.serverToday - ctx.userToday
  {
    var missing := MissingRequired(vals);
    if missing != [] then Err(MissingRequiredFields(missing))
    else
      var date := vals.dateRequested.GetOr(ctx.userToday);
      var details := vals.details.(currency := if vals.details.currency.Some? then vals.details.currency else ctx.companyCurrency);
      Ok(Request(
        name := vals.name.GetOr(NewName),
        dateRequested := Some(date),
        durationDays := DurationDays(Some(date), ctx.serverToday),
        requestType := vals.requestType.value,
        status := vals.status.GetOr(Draft),
        urgency := vals.urgency.value,
        requestedBy := vals.requestedBy.GetOr(ctx.user),
        department := vals.department.value,
        positionTitle := vals.positionTitle.value,
        justification := vals.justification.value,
        details := details,
        approvedBy := vals.approvedBy,
        approvalDate := vals.approvalDate,
        rejectionReason := vals.rejectionReason))
  }

  /** The values after the naming rule: only the name changes, to the one it assigns. */
  function NamedVals(vals: Vals, next: Option<string>): (r: Vals)
    ensures r.name == Some(AssignedName(vals.name, next))
    ensures r.(name := vals.name) == vals
  {
    vals.(name := Some(AssignedName(vals.name, next)))
  }

  /** The overridden `create`: the naming rule, then the inherited `create`. */
  function NewRequest(vals: Vals, ctx: CreateContext): (r: Result<Request, CreateError>)
    ensures r.Ok? <==> MissingRequired(vals) == []
    ensures r.Err? ==> r.error == MissingRequiredFields(MissingRequired(vals))
    ensures r.Ok? ==> r.value.name == AssignedName(vals.name, ctx.nextSequence)
  {
    Stored(NamedVals(vals, ctx.nextSequence), ctx)
  }

  /**
   * `create` as written: the module imports only `models, fields, api`, so the
   * argument `_('New')`, evaluated before `vals.get` runs, raises NameError.
   */
  function CreateAsWritten(vals: Vals, ctx: CreateContext): (r: Result<Request, CreateError>)
    ensures r.Err?
  {
    Err(UndefinedName("_"))
  }

  /**
   * `create`, with `_('New')` read as the literal "New". The source writes the
   * assigned name into the caller's dictionary; `vals'` is that dictionary afterwards.
   */
  method Create(id: RecordId, vals: Vals, ctx: CreateContext)
    returns (res: Result<ManpowerRequest, CreateError>, vals': Vals)
    ensures vals' == NamedVals(vals, ctx.nextSequence)
    ensures res.Ok? <==> NewRequest(vals, ctx).Ok?
    ensures res.Ok? ==> fresh(res.value) && res.value.id == id && res.value.View() == NewRequest(vals, ctx).value
    ensures res.Err? ==> res.error == NewRequest(vals, ctx).error
  {
    vals' := vals;
    if vals'.name.GetOr(NewName) == NewName {
      var next := ctx.nextSequence;
      vals' := vals'.(name := Some(if next.Some? && next.value != "" then next.value else NewName));
    }
    var stored := Stored(vals', ctx);
    match stored
    case Ok(v) =>
      var record := new ManpowerRequest(id, v);
      res := Ok(record);
    case Err(e) =>
      res := Err(e);
  }

  // ---------------------------------------------------------------------------
  // The classes
  // ---------------------------------------------------------------------------

  /** One `manpower.request` record; each action method acts on this single record. */
  class ManpowerRequest {
    const id: RecordId
    var name: string
    var dateRequested: Option<Date>
    var durationDays: int
    var requestType: RequestType
    var status: Status
    var urgency: Urgency
    var requestedBy: UserId
    var department: DepartmentId
    var positionTitle: string
    var justification: string
    var details: Details
    var approvedBy: Option<UserId>
    var approvalDate: Option<DateTime>
    var rejectionReason: Option<string>

    /** The record's stored field values. */
    function View(): Request
      reads this
    {
      Request(name, dateRequested, durationDays, requestType, status, urgency, requestedBy,
              department, positionTitle, justification, details, approvedBy, approvalDate, rejectionReason)
    }

    constructor (id: RecordId, v: Request)
      ensures this.id == id && View() == v
    {
      this.id := id;
      name, dateRequested, durationDays := v.name, v.dateRequested, v.durationDays;
      requestType, status, urgency, requestedBy := v.requestType, v.status, v.urgency, v.requestedBy;
      department, positionTitle, justification, details := v.department, v.positionTitle, v.justification, v.details;
      approvedBy, approvalDate, rejectionReason := v.approvedBy, v.approvalDate, v.rejectionReason;
    }

    /** `action_submit_for_approval`: status becomes for_approval, from any status. */
    method ActionSubmitForApproval() returns (ok: bool)
      modifies this
      ensures ok
      ensures View() == old(View()).(status := ForApproval)
      ensures View() == Apply(old(View()), SubmitForApproval)
    {
      status := ForApproval;
      ok := true;
    }

    /** `action_approve`: status approved, approver and approval time recorded. */
    method ActionApprove(user: UserId, now: DateTime) returns (ok: bool)
      modifies this
      ensures ok
      ensures View() == old(View()).(status := Approved, approvedBy := Some(user), approvalDate := Some(now))
      ensures View() == Apply(old(View()), Approve(user, now))
    {
      status, approvedBy, approvalDate := Approved, Some(user), Some(now);
      ok := true;
    }

    /** `action_reject`: writes nothing; opens the reject wizard for this record. */
    method ActionReject() returns (w: WindowAction)
      ensures w.OpenRejectWizard? && w.requestId == id
    {
      w := OpenRejectWizard(id);
    }

    /** `action_hold`: status becomes on_hold, from any status. */
    method ActionHold() returns (ok: bool)
      modifies this
      ensures ok
      ensures View() == old(View()).(status := OnHold)
      ensures View() == Apply(old(View()), Hold)
    {
      status := OnHold;
      ok := true;
    }

    /** `action_reset_to_draft`: status draft, approver, approval time and reason cleared. */
    method ActionResetToDraft() returns (ok: bool)
      modifies this
      ensures ok
      ensures View() == old(View()).(status := Draft, approvedBy := None, approvalDate := None, rejectionReason := None)
      ensures View() == Apply(old(View()), ResetToDraft)
    {
      status, approvedBy, approvalDate, rejectionReason := Draft, None, None, None;
      ok := true;
    }
  }

  /** `manpower.request.reject.wizard`: the transient form that records a rejection. */
  class RejectWizard {
    var request: ManpowerRequest
    var rejectionReason: string

    constructor (request: ManpowerRequest, rejectionReason: string)
      ensures this.request == request && this.rejectionReason == rejectionReason
    {
      this.request := request;
      this.rejectionReason := rejectionReason;
    }

    /** `action_reject`: the request becomes rejected with the wizard's reason; the window closes. */
    method ActionReject() returns (w: WindowAction)
      modifies request
      ensures w == CloseWindow
      ensures request.View() == old(request.View()).(status := Rejected, rejectionReason := Some(rejectionReason))
      ensures request.View() == Apply(old(request.View()), Reject(rejectionReason))
    {
      request.status := Rejected;
      request.rejectionReason := Some(rejectionReason);
      w := CloseWindow;
    }
  }
}
