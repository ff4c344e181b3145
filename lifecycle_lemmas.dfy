/**
 * Properties of the manpower-request workflow over whole histories of actions,
 * of record creation, and of the colour lookups.
 */
module LifecycleLemmas {
  import opened Wrappers
  import opened ManpowerRequests

  /** The request after the actions `acts`, applied in order. */
  function Run(v: Request, acts: seq<Action>): Request
    decreases |acts|
  {
    if acts == [] then v else Run(Apply(v, acts[0]), acts[1..])
  }

  // ---------------------------------------------------------------------------
  // Histories of actions
  // ---------------------------------------------------------------------------

  /** Whatever the history, a request whose decision was recorded keeps it recorded. */
  lemma {:induction false} RunKeepsDecisionRecorded(v: Request, acts: seq<Action>)
    requires DecisionRecorded(v)
    ensures DecisionRecorded(Run(v, acts))
    decreases |acts|
  {
    if acts != [] {
      RunKeepsDecisionRecorded(Apply(v, acts[0]), acts[1..]);
    }
  }

  /** No action is guarded, so the status after a history is the one its last action writes. */
  lemma {:induction false} RunStatusIsLastAction(v: Request, acts: seq<Action>)
    requires acts != []
    ensures Run(v, acts).status == TargetStatus(acts[|acts| - 1])
    decreases |acts|
  {
    if |acts| > 1 {
      RunStatusIsLastAction(Apply(v, acts[0]), acts[1..]);
    }
  }

  /** Only the four workflow fields ever change: every other field keeps its value. */
  lemma {:induction false} RunChangesOnlyWorkflow(v: Request, acts: seq<Action>)
    ensures WithoutWorkflow(Run(v, acts)) == WithoutWorkflow(v)
    decreases |acts|
  {
    if acts != [] {
      RunChangesOnlyWorkflow(Apply(v, acts[0]), acts[1..]);
    }
  }

  /**
   * The approver and approval time are written together: after any history they
   * are the initial pair, both empty, or the user and time of one approval in it.
   */
  lemma {:induction false} ApprovalComesFromApprove(v: Request, acts: seq<Action>)
    ensures var r := Run(v, acts);
      (r.approvedBy == v.approvedBy && r.approvalDate == v.approvalDate) ||
      (r.approvedBy.None? && r.approvalDate.None?) ||
      (exists i :: 0 <= i < |acts| && acts[i].Approve? &&
         r.approvedBy == Some(acts[i].user) && r.approvalDate == Some(acts[i].now))
    decreases |acts|
  {
    if acts != [] {
      var w := Apply(v, acts[0]);
      var rest := acts[1..];
      var r := Run(w, rest);
      ApprovalComesFromApprove(w, rest);
      if exists j :: 0 <= j < |rest| && rest[j].Approve? &&
           r.approvedBy == Some(rest[j].user) && r.approvalDate == Some(rest[j].now) {
        var j :| 0 <= j < |rest| && rest[j].Approve? &&
          r.approvedBy == Some(rest[j].user) && r.approvalDate == Some(rest[j].now);
        assert acts[j + 1] == rest[j];
      } else if r.approvedBy == w.approvedBy && r.approvalDate == w.approvalDate && acts[0].Approve? {
        assert acts[0].Approve? && r.approvedBy == Some(acts[0].user) && r.approvalDate == Some(acts[0].now);
      }
    }
  }

  /** A rejection reason, once present, survives everything but a reset to draft. */
  lemma {:induction false} RejectionReasonSurvivesUntilReset(v: Request, acts: seq<Action>)
    requires v.rejectionReason.Some?
    requires forall i :: 0 <= i < |acts| ==> !acts[i].ResetToDraft?
    ensures Run(v, acts).rejectionReason.Some?
    decreases |acts|
  {
    if acts != [] {
      RejectionReasonSurvivesUntilReset(Apply(v, acts[0]), acts[1..]);
    }
  }

  /** Every status can be reached from every request in a single action. */
  lemma EveryStatusInOneAction(v: Request, s: Status)
    ensures exists a :: Apply(v, a).status == s
  {
    var a := match s
      case Draft => ResetToDraft
      case ForApproval => SubmitForApproval
      case Approved => Approve(0, 0)
      case Rejected => Reject("")
      case OnHold => Hold;
    assert Apply(v, a).status == s;
  }

  /**
   * Writing the same values twice is writing them once. This is why applying an
   * action to a recordset equals applying it to each record, repeats included.
   */
  lemma ActionIdempotent(v: Request, a: Action)
    ensures Apply(Apply(v, a), a) == Apply(v, a)
  {
  }

  /**
   * Approval does not clear an earlier rejection reason, and resubmission does not
   * clear an earlier approval: a request can be approved and still carry a reason.
   */
  lemma StaleFieldsSurvive(v: Request, user: UserId, now: DateTime, reason: string)
    ensures var r := Run(v, [Reject(reason), Approve(user, now)]);
      r.status == Approved && r.rejectionReason == Some(reason)
    ensures var r := Run(v, [Approve(user, now), SubmitForApproval]);
      r.status == ForApproval && r.approvedBy == Some(user) && r.approvalDate == Some(now)
  {
    var rejected := [Reject(reason), Approve(user, now)];
    assert Run(v, rejected) == Run(Apply(v, rejected[0]), [Approve(user, now)]);
    var approved := [Approve(user, now), SubmitForApproval];
    assert Run(v, approved) == Run(Apply(v, approved[0]), [SubmitForApproval]);
  }

  // ---------------------------------------------------------------------------
  // Create
  // ---------------------------------------------------------------------------

  /**
   * A request created without an explicit status or workflow values starts in
   * draft with nothing decided. Dated by default, its day count is the gap between
   * the server's today and the user's today: 0 when they agree, -1 for a user
   * whose date is already a day ahead of the server's.
   */
  lemma NewRequestStartsInDraft(vals: Vals, ctx: CreateContext)
    requires vals.status.None?
    requires vals.approvedBy.None? && vals.approvalDate.None? && vals.rejectionReason.None?
    ensures var r := NewRequest(vals, ctx);
      r.Ok? ==> r.value.status == Draft && DecisionRecorded(r.value) &&
                r.value.approvedBy.None? && r.value.approvalDate.None? && r.value.rejectionReason.None?
    ensures var r := NewRequest(vals, ctx);
      r.Ok? && vals.dateRequested.None? ==>
        r.value.durationDays == ctx.serverToday - ctx.userToday &&
        (ctx.serverToday == ctx.userToday ==> r.value.durationDays == 0)
  {
  }

  /** A complete set of values, used to show that the written `create` fails where it should not. */
  function SampleVals(): (vals: Vals)
    ensures MissingRequired(vals) == []
  {
    Vals(None, None, Some(NewPosition), None, Some(High), None, Some(7), Some("Engineer"),
         Some("Team growth"), Details(None, None, None, None, None, None, None, None),
         None, None, None)
  }

  /**
   * The written `create` raises NameError on a complete set of values for which
   * the intended `create` stores a draft request named by the sequence.
   */
  lemma CreateAsWrittenRejectsCompleteVals(ctx: CreateContext)
    requires ctx.nextSequence == Some("MR/0001")
    ensures CreateAsWritten(SampleVals(), ctx) == Err(UndefinedName("_"))
    ensures NewRequest(SampleVals(), ctx).Ok?
    ensures NewRequest(SampleVals(), ctx).value.name == "MR/0001"
    ensures NewRequest(SampleVals(), ctx).value.status == Draft
  {
  }

  // ---------------------------------------------------------------------------
  // Colours
  // ---------------------------------------------------------------------------

  /** Distinct statuses get distinct colours. */
  lemma StatusColorInjective(s: Status, t: Status)
    ensures StatusColor(Some(s)) == StatusColor(Some(t)) ==> s == t
  {
  }

  /** Distinct urgency levels get distinct colours. */
  lemma UrgencyColorInjective(a: Urgency, b: Urgency)
    ensures UrgencyColor(Some(a)) == UrgencyColor(Some(b)) ==> a == b
  {
  }
}
