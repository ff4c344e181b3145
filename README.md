# Manpower request lifecycle

A Dafny model of the `manpower.request` record of the pre-printed forms writer
Odoo module, with its reject wizard, and proofs about them. The module has one
real piece of behaviour, the request workflow:

- A request has one of five statuses: draft, for approval, approved, rejected, on hold.
- Four buttons rewrite the record's workflow fields: submit for approval, approve,
  hold and reset to draft. A fifth button, reject, opens a wizard, and the wizard's
  own action records the rejection and its reason.
- Two lookups map urgency and status to kanban colour indices.
- A stored computed field counts the days since the request date.
- `create` gives each new request a name from a sequence.

Files:

- `wrappers.dfy`: `Option` (absent key, or Python's `False`) and `Result`.
- `manpower_request.dfy`, module `ManpowerRequests`: the selection types, the record
  value `Request` and the `create` values `Vals`. It also holds `Apply` (each action's
  write as a function on values), the colour maps, the day count, the naming rule,
  the create specification (`Stored`, `NewRequest`), and the classes
  `ManpowerRequest` and `RejectWizard`. Their methods update fields in place and are
  proved equal to `Apply` on the record's `View()`.
- `lifecycle_lemmas.dfy`, module `LifecycleLemmas`: `Run` applies a history of
  actions. The lemmas, proved by induction over histories, cover: the recorded
  decision survives, the status is set by the last action, and no other field ever
  changes. Further lemmas cover creation and colour injectivity.

Environment values are parameters: the acting user (`env.user`), the clock
(`fields.Datetime.now`), today's date in the user's timezone (`fields.Date.context_today`,
the default request date) and on the server (`date.today()`, used for the day count),
the company currency, and
the value `ir.sequence.next_by_code('manpower.request')` returns.
Dates are day numbers, so subtracting two gives `timedelta.days`.
The translated literal `_('New')` is the string `"New"`.

## Model

| member | source | states |
|---|---|---|
| ManpowerRequests.Apply | models/manpower_request.py:164-235 | each action writes its target status whatever the current status, and changes nothing outside status, approver, approval date and reason. Approve records its user and time and the wizard's reject its reason; reset clears all three; every other action keeps them. Each action keeps "approved has approver and date; rejected has reason" |
| ManpowerRequests.ManpowerRequest.ActionSubmitForApproval | models/manpower_request.py:164-168 | returns true; status becomes for_approval and every other field keeps its value |
| ManpowerRequests.ManpowerRequest.ActionApprove | models/manpower_request.py:170-176 | returns true; status approved, approver the acting user, approval date the current time; rejection reason and all other fields untouched |
| ManpowerRequests.ManpowerRequest.ActionReject | models/manpower_request.py:178-186 | changes nothing (no modifies clause) and returns the window action that opens the reject wizard for this record's id |
| ManpowerRequests.ManpowerRequest.ActionHold | models/manpower_request.py:188-190 | returns true; status becomes on_hold and nothing else changes |
| ManpowerRequests.ManpowerRequest.ActionResetToDraft | models/manpower_request.py:192-199 | returns true; status draft; approver, approval date and rejection reason all empty; other fields untouched |
| ManpowerRequests.RejectWizard.ActionReject | models/manpower_request.py:230-235 | the wizard's request becomes rejected with the wizard's reason, approval fields untouched; returns the close-window action |
| ManpowerRequests.UrgencyColor | models/manpower_request.py:201-209 | result in 0..3; low/medium/high/critical are recovered from their colour (0/1/2/3); an unset level gets the default 0 |
| ManpowerRequests.StatusColor | models/manpower_request.py:211-220 | result in 0..4; each of the five statuses is recovered from its colour (0..4); an unset status gets the default 0 |
| ManpowerRequests.DurationDays | models/manpower_request.py:154-162 | request date plus the result is today; negative exactly when the request date is in the future; 0 without a request date |
| ManpowerRequests.ComputeDurationDays | models/manpower_request.py:154-162 | every record in the set, repeats included, gets the day count of its own request date and keeps all other fields |
| ManpowerRequests.AssignedName | models/manpower_request.py:149-151 | a supplied name other than "New" is kept; a missing name or "New" becomes the next sequence value, or "New" when the sequence yields no or an empty value |
| ManpowerRequests.MissingRequired | models/manpower_request.py:36-122 | empty exactly when request type, urgency, department, position title and justification are all supplied |
| ManpowerRequests.Stored | models/manpower_request.py:13-146 | succeeds exactly when no required field is missing, else fails naming them. Every supplied key is stored as given; an absent one gets its declared default: name "New", request date the user's today, status draft, requester the acting user, currency the company's. The stored day count is the server's today minus the request date |
| ManpowerRequests.NamedVals | models/manpower_request.py:150-151 | the values dictionary after the naming rule: the name is the assigned one and no other key changes |
| ManpowerRequests.NewRequest | models/manpower_request.py:148-152 | create succeeds exactly when no required field is missing, otherwise fails naming the missing ones; the stored name is the one the naming rule assigns |
| ManpowerRequests.Create | models/manpower_request.py:148-152 | a fresh record with the given id whose fields are `NewRequest` of the values (naming rule, then the inherited create), or that create's error; the caller's dictionary comes back with the assigned name written into it |
| ManpowerRequests.CreateAsWritten | models/manpower_request.py:148-152 | as written, every create fails with NameError for `_` |
| LifecycleLemmas.RunKeepsDecisionRecorded | models/manpower_request.py:164-235 | after any history of actions, an approved request still has approver and date, and a rejected one a reason, if that held at the start |
| LifecycleLemmas.RunStatusIsLastAction | models/manpower_request.py:164-235 | after a non-empty history the status is the one the last action writes, whatever came before |
| LifecycleLemmas.RunChangesOnlyWorkflow | models/manpower_request.py:164-235 | no history of actions changes any field other than status, approver, approval date and rejection reason |
| LifecycleLemmas.ApprovalComesFromApprove | models/manpower_request.py:170-199 | after any history, the approver and approval date are the initial pair, both empty, or the user and time of one approval in the history |
| LifecycleLemmas.RejectionReasonSurvivesUntilReset | models/manpower_request.py:164-235 | a rejection reason is never cleared by any action other than reset to draft |
| LifecycleLemmas.EveryStatusInOneAction | models/manpower_request.py:164-235 | from every request, every status is one action away (no action checks the current status) |
| LifecycleLemmas.ActionIdempotent | models/manpower_request.py:164-199 | applying an action twice is applying it once |
| LifecycleLemmas.StaleFieldsSurvive | models/manpower_request.py:170-235 | reject then approve leaves an approved request with its rejection reason; approve then submit leaves a for-approval request with its approver and date |
| LifecycleLemmas.NewRequestStartsInDraft | models/manpower_request.py:43-49 | a request created without status or workflow values starts in draft with no approver, approval date or reason; dated by default, its day count is the server's today minus the user's today (0 when they agree) |
| LifecycleLemmas.CreateAsWrittenRejectsCompleteVals | models/manpower_request.py:150 | on a complete set of values the written create raises NameError, while the intended create stores a draft named by the sequence |
| LifecycleLemmas.StatusColorInjective | models/manpower_request.py:211-220 | distinct statuses have distinct colours |
| LifecycleLemmas.UrgencyColorInjective | models/manpower_request.py:201-209 | distinct urgency levels have distinct colours |

## Findings

| source | as written | input that shows it | evidently intended | confidence | as-written member | corrected member |
|---|---|---|---|---|---|---|
| models/manpower_request.py:150 | `_('New')` is evaluated, but line 3 imports only `models, fields, api`, so `_` is undefined and `create` raises NameError; the field default at line 18 fails the same way | any values; `LifecycleLemmas.CreateAsWrittenRejectsCompleteVals` uses `LifecycleLemmas.SampleVals` with the sequence returning "MR/0001" | `_` imported from `odoo`; create stores a draft request named "MR/0001" | medium (depends on `_` not being a builtin in the server); not executed | ManpowerRequests.CreateAsWritten | ManpowerRequests.Create |

The rest of the model uses the corrected `Create` and `NewRequest`.

## Left out

- The PDF overlay and merge pipeline. No file of the repository here implements it.
- models/pre_printed_form.py `process_action`: it writes a constant PDF as an attachment, which is storage I/O. It would also fail, because it calls `.encode('base64')` on bytes.
- controller/main.py: writes a fixed "Hello, World!" reportlab PDF to disk. This is file I/O through a foreign library.
- models/overlay_configuration_item.py and models/overlay_test_item.py: field declarations with defaults only. The coordinates are floating point.
- `__manifest__.py`: module configuration only.
- Mail tracking (`mail.thread`, `tracking=True`), record ordering (`_order`), access rights and views are not modelled.
- `ir.sequence` is not modelled: the next sequence value is a parameter. A create that does not use the sequence still takes the parameter, and consuming a sequence number is not modelled.
- The window-action dictionaries are reduced to `OpenRejectWizard(id)` and `CloseWindow`. Their view and target keys are left out.
- Actions act on one record; a `self.write` over a multi-record set is not modelled. `LifecycleLemmas.ActionIdempotent` shows only that a record repeated in a set would not change the result.
- On a multi-record `self`, `self.id` (line 185), `self.urgency_level` (line 209) and `self.request_status` (line 220) raise Odoo's "expected singleton" error. That error is not modelled: `ActionReject`, `UrgencyColor` and `StatusColor` take one record's values.
- ComputeDurationDays: `today` is one parameter for the whole call. The source reads `date.today()` per record, so a run across midnight could mix two days.
- ComputeDurationDays: Odoo recomputes it only when `date_requested` changes (`@api.depends`), so the stored count goes stale as days pass. That trigger is not modelled: the method recomputes when called.
- Stored: a `vals` key present with the value `False` is not distinguished from an absent key. For `name` this matters: `vals.get('name', 'New')` returns `False`, which is kept.
- Stored: Odoo reports a missing required field as a database constraint error, not as a list of field names. The list here is in declaration order.
- Stored: the monetary `budget_allocated` is an opaque integer here; currency arithmetic and floating point are not modelled.
- Stored: the `readonly=True` flags bind only the web client. The ORM's `create` accepts approver, approval date and reason, and so does the model.
- Stored: `default=lambda self: self.env.user` for `requested_by` uses the acting user, a parameter. Required selection fields given an unknown key are not modelled: the selection types admit only their declared values.
