/** The allocation schema (`Allocation`): the loan of one asset to one user,
    its two status enumerations and their defaults, its validators, and the
    `isOverdue` and `duration` virtuals. */
module AllocationModel {
  import opened Common
  import opened JsText
  import MaterielModel

  /** Lifecycle status. There is no `pending` value: an unapproved request is
      an `Active` allocation whose approval status is `Pending`. */
  datatype AllocationStatus = Active | Returned | Overdue | Cancelled

  datatype ApprovalStatus = Pending | Approved | Rejected

  const DefaultStatus: AllocationStatus := Active
  const DefaultApproval: ApprovalStatus := Pending
  const DefaultReturnCondition: string := "Bon"

  datatype Allocation = Allocation(
    materiel: Id,
    user: Option<Id>,
    allocatedBy: Id,
    allocationDate: int,
    returnDate: Option<int>,
    expectedReturnDate: Option<int>,
    status: AllocationStatus,
    purpose: string,
    location: string,
    notes: Option<string>,
    returnNotes: Option<string>,
    returnedBy: Option<Id>,
    returnCondition: Option<string>,
    damageReport: Option<string>,
    approvalStatus: ApprovalStatus,
    approvedBy: Option<Id>,
    approvalDate: Option<int>)

  /** The validators: `user`, `purpose` and `location` required (the other
      required references are always present in this model), and the return
      condition one of the four asset conditions when present. */
  predicate SchemaValid(a: Allocation) {
    && a.user.Some?
    && MaterielModel.Required(a.purpose)
    && MaterielModel.Required(a.location)
    && MaterielModel.InEnum(a.returnCondition, MaterielModel.ConditionLabels)
  }

  /** The body fields a create supplies. */
  datatype AllocationInput = AllocationInput(
    purpose: Option<string>,
    location: Option<string>,
    expectedReturnDate: Option<int>,
    notes: Option<string>)

  /** The document `Allocation.create` builds: the given fields, trimmed,
      allocation date now, status active and return condition Bon by
      default, and the approval status the caller chose. */
  function NewAllocation(materiel: Id, user: Option<Id>, allocatedBy: Id, i: AllocationInput,
                         approval: ApprovalStatus, now: int): (a: Allocation)
    ensures a.status == Active && a.approvalStatus == approval
    ensures a.materiel == materiel && a.user == user && a.allocatedBy == allocatedBy
    ensures a.returnCondition == Some(DefaultReturnCondition)
    ensures a.returnDate.None? && a.approvedBy.None? && a.returnedBy.None?
  {
    Allocation(materiel, user, allocatedBy, now, None, i.expectedReturnDate, DefaultStatus,
      MaterielModel.RequiredText(i.purpose), MaterielModel.RequiredText(i.location), i.notes,
      None, None, Some(DefaultReturnCondition), None, approval, None, None)
  }

  /** A new allocation validates exactly when a user is named and the
      purpose and location are not blank. */
  lemma NewAllocationValid(materiel: Id, user: Option<Id>, allocatedBy: Id, i: AllocationInput,
                           approval: ApprovalStatus, now: int)
    ensures SchemaValid(NewAllocation(materiel, user, allocatedBy, i, approval, now)) <==>
      && user.Some?
      && i.purpose.Some? && Trim(i.purpose.value) != ""
      && i.location.Some? && Trim(i.location.value) != ""
  {
    assert DefaultReturnCondition in MaterielModel.ConditionLabels;
  }

  /** The `isOverdue` virtual: active, with an expected return date, and
      that date is past. */
  predicate IsOverdue(a: Allocation, now: int) {
    a.status == Active && a.expectedReturnDate.Some? && now > a.expectedReturnDate.value
  }

  /** Only an active allocation with an expected return date can be
      overdue, and once overdue it stays so as time passes, until its
      status changes. */
  lemma OverdueStaysOverdue(a: Allocation, now: int, later: int)
    requires IsOverdue(a, now) && now <= later
    ensures a.status == Active && a.expectedReturnDate.Some?
    ensures IsOverdue(a, later)
  {
  }

  /** The `duration` virtual: whole days, rounded up, from the allocation
      date to the return date, or to now while not returned. */
  function Duration(a: Allocation, now: int): (days: int)
    ensures var end := if a.returnDate.Some? then a.returnDate.value else now;
            (days - 1) * DayMs < end - a.allocationDate <= days * DayMs
  {
    var end := if a.returnDate.Some? then a.returnDate.value else now;
    CeilDiv(end - a.allocationDate, DayMs)
  }

  /** Once returned, the duration no longer depends on the clock. */
  lemma DurationFixedOnceReturned(a: Allocation, now1: int, now2: int)
    requires a.returnDate.Some?
    ensures Duration(a, now1) == Duration(a, now2)
  {
  }

  /** An open allocation's duration never decreases as time passes. */
  lemma {:induction false} DurationMonotone(a: Allocation, now1: int, now2: int)
    requires a.returnDate.None? && now1 <= now2
    ensures Duration(a, now1) <= Duration(a, now2)
  {
    var d1 := Duration(a, now1);
    var d2 := Duration(a, now2);
    assert (d1 - 1) * DayMs < d2 * DayMs;
    LessAfterScaling(d1 - 1, d2, DayMs);
  }

  lemma LessAfterScaling(x: int, y: int, k: int)
    requires k > 0 && x * k < y * k
    ensures x < y
  {
  }

  /** The body of an edit: one entry per path the schema declares, absent
      when the body does not name it. */
  datatype AllocationPatch = AllocationPatch(
    materiel: Option<Id>,
    user: Option<Id>,
    allocatedBy: Option<Id>,
    allocationDate: Option<int>,
    returnDate: Option<int>,
    expectedReturnDate: Option<int>,
    status: Option<AllocationStatus>,
    purpose: Option<string>,
    location: Option<string>,
    notes: Option<string>,
    returnNotes: Option<string>,
    returnedBy: Option<Id>,
    returnCondition: Option<string>,
    damageReport: Option<string>,
    approvalStatus: Option<ApprovalStatus>,
    approvedBy: Option<Id>,
    approvalDate: Option<int>)

  /** The edit that names no path. */
  const NoEdit: AllocationPatch :=
    AllocationPatch(None, None, None, None, None, None, None, None, None, None, None, None, None, None, None, None, None)

  /** Update validators on the paths the edit names. */
  predicate PatchValid(p: AllocationPatch) {
    && (p.purpose.Some? ==> MaterielModel.Required(Trim(p.purpose.value)))
    && (p.location.Some? ==> MaterielModel.Required(Trim(p.location.value)))
    && (p.returnCondition.Some? ==> p.returnCondition.value in MaterielModel.ConditionLabels)
  }

  /** The document after a `findByIdAndUpdate` with this edit: every named
      path takes the edit's value (trimmed where the schema trims), every
      other path keeps its own. */
  function ApplyPatch(a: Allocation, p: AllocationPatch): (r: Allocation)
    ensures p.materiel.None? ==> r.materiel == a.materiel
    ensures p.materiel.Some? ==> r.materiel == p.materiel.value
    ensures p.user.None? ==> r.user == a.user
    ensures p.user.Some? ==> r.user == p.user
    ensures p.approvalStatus.None? ==> r.approvalStatus == a.approvalStatus
    ensures p.approvalStatus.Some? ==> r.approvalStatus == p.approvalStatus.value
    ensures p.status.None? ==> r.status == a.status
    ensures p.status.Some? ==> r.status == p.status.value
    ensures p == NoEdit ==> r == a
  {
    Allocation(
      MaterielModel.OrDefault(p.materiel, a.materiel), Keep(p.user, a.user),
      MaterielModel.OrDefault(p.allocatedBy, a.allocatedBy), MaterielModel.OrDefault(p.allocationDate, a.allocationDate),
      Keep(p.returnDate, a.returnDate), Keep(p.expectedReturnDate, a.expectedReturnDate),
      MaterielModel.OrDefault(p.status, a.status), MaterielModel.TrimmedOr(p.purpose, a.purpose),
      MaterielModel.TrimmedOr(p.location, a.location), Keep(p.notes, a.notes), Keep(p.returnNotes, a.returnNotes),
      Keep(p.returnedBy, a.returnedBy), Keep(p.returnCondition, a.returnCondition), Keep(p.damageReport, a.damageReport),
      MaterielModel.OrDefault(p.approvalStatus, a.approvalStatus), Keep(p.approvedBy, a.approvedBy),
      Keep(p.approvalDate, a.approvalDate))
  }

  /** An edit that passes the update validators keeps a valid allocation valid. */
  lemma PatchKeepsValid(a: Allocation, p: AllocationPatch)
    requires SchemaValid(a) && PatchValid(p)
    ensures SchemaValid(ApplyPatch(a, p))
  {
  }
}
