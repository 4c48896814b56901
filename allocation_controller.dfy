/** The allocation workflow: requesting, approving, rejecting, returning,
    cancelling and editing the loan of an asset, with the effect each step
    has on the asset. Each handler is a method on the store, proved to leave
    the store in the state its `...Outcome` function describes; the
    properties the workflow promises are proved about those functions. */
module AllocationController {
  import opened Common
  import opened Store
  import opened AllocationModel
  import M = MaterielModel

  /** The owner-or-staff check of the update, return and cancel handlers:
      administrators and technicians may act on any allocation, anyone else
      only on their own. A record without a user cannot be compared and the
      handler fails. */
  function OwnerCheck(caller: Caller, owner: Option<Id>): (e: Option<Error>)
    ensures e.None? <==> IsStaff(caller.role) || owner == Some(caller.id)
    ensures e.Some? ==> e.value == Forbidden || e.value == ServerError
  {
    if IsStaff(caller.role) then None
    else if owner.None? then Some(ServerError)
    else if owner.value != caller.id then Some(Forbidden)
    else None
  }

  /** The user an allocation is created for: the body's `userId` when an
      administrator gives one, the caller otherwise. */
  function TargetUser(caller: Caller, userId: Option<Id>): (u: Id)
    ensures caller.role == Admin && userId.Some? ==> u == userId.value
    ensures caller.role != Admin || userId.None? ==> u == caller.id
  {
    if caller.role == Admin && userId.Some? then userId.value else caller.id
  }

  /** The allocations of an asset held by one user with status `active`:
      the duplicate check of a create. */
  function ActiveOfUser(t: Tables, materiel: Id, user: Id): (s: set<Id>)
    ensures forall id :: id in s <==> id in ActiveAllocationsOf(t, materiel) && t.allocations[id].user == Some(user)
  {
    set id | id in t.allocations && t.allocations[id].materiel == materiel
      && t.allocations[id].status == Active && t.allocations[id].user == Some(user)
  }

  /** The allocation a create builds: approved at once when an administrator
      creates it, pending otherwise. */
  function Requested(caller: Caller, materielId: Id, userId: Option<Id>, i: AllocationInput, now: int): Allocation {
    NewAllocation(materielId, Some(TargetUser(caller, userId)), caller.id, i,
                  if caller.role == Admin then Approved else Pending, now)
  }

  /** The allocation an approval saves. */
  function ApprovedBy(a: Allocation, caller: Caller, now: int): (r: Allocation)
    ensures r.approvalStatus == Approved && r.approvedBy == Some(caller.id) && r.approvalDate == Some(now)
    ensures r.status == Active && r.materiel == a.materiel && r.user == a.user
    ensures SchemaValid(r) <==> SchemaValid(a)
  {
    a.(approvalStatus := Approved, approvedBy := Some(caller.id), approvalDate := Some(now), status := Active)
  }

  /** The allocation a rejection saves. */
  function RejectedBy(a: Allocation, caller: Caller, reason: Option<string>, now: int): (r: Allocation)
    ensures r.approvalStatus == Rejected && r.approvedBy == Some(caller.id) && r.approvalDate == Some(now)
    ensures r.status == Cancelled && r.materiel == a.materiel && r.user == a.user
    ensures forall n :: !IsOverdue(r, n)
    ensures SchemaValid(r) <==> SchemaValid(a)
  {
    a.(approvalStatus := Rejected, approvedBy := Some(caller.id), approvalDate := Some(now),
       status := Cancelled, notes := Some(AppendNote(a.notes, RejectionLine(reason))))
  }

  /** The allocation a cancel saves. */
  function CancelledBy(a: Allocation, caller: Caller): (r: Allocation)
    ensures r.status == Cancelled && r.approvalStatus == a.approvalStatus
    ensures r.materiel == a.materiel && r.user == a.user
    ensures forall n :: !IsOverdue(r, n)
    ensures SchemaValid(r) <==> SchemaValid(a)
  {
    a.(status := Cancelled, notes := Some(AppendNote(a.notes, CancelLine(caller))))
  }

  // ---------------------------------------------------------------- create

  function CreateOutcome(t: Tables, caller: Caller, materielId: Id, userId: Option<Id>,
                         i: AllocationInput, now: int): (o: Outcome<Allocation>)
    ensures materielId !in t.materiels ==> o == Outcome(Err(NotFound), t)
    ensures materielId in t.materiels && t.materiels[materielId].status != M.Disponible ==> o == Outcome(Err(InvalidState), t)
    ensures o.result.Ok? <==>
      && materielId in t.materiels && t.materiels[materielId].status == M.Disponible
      && ActiveOfUser(t, materielId, TargetUser(caller, userId)) == {}
      && SchemaValid(Requested(caller, materielId, userId, i, now))
      && (caller.role == Admin ==> M.SchemaValid(M.HandedOver(t.materiels[materielId], Some(TargetUser(caller, userId)), now)))
    ensures o.result.Ok? ==>
      var a := o.result.value;
      && a == Requested(caller, materielId, userId, i, now)
      && a.materiel == materielId && a.user == Some(TargetUser(caller, userId)) && a.allocatedBy == caller.id
      && a.status == Active
      && a.approvalStatus == (if caller.role == Admin then Approved else Pending)
      && o.tables.allocations == t.allocations[t.nextId := a]
    ensures o.result.Ok? && caller.role == Admin ==>
      o.tables.materiels == t.materiels[materielId := M.HandedOver(t.materiels[materielId], Some(TargetUser(caller, userId)), now)]
    ensures o.result.Ok? && caller.role != Admin ==> o.tables.materiels == t.materiels
    ensures o.result.Err? && o.result.error != ValidationFailed ==> o.tables == t
  {
    if materielId !in t.materiels then Outcome(Err(NotFound), t)
    else
      var m := t.materiels[materielId];
      if m.status != M.Disponible then Outcome(Err(InvalidState), t)
      else
        var target := TargetUser(caller, userId);
        if ActiveOfUser(t, materielId, target) != {} then Outcome(Err(Conflict), t)
        else
          var a := Requested(caller, materielId, userId, i, now);
          if !SchemaValid(a) then Outcome(Err(ValidationFailed), t)
          else
            var t1 := t.(allocations := t.allocations[t.nextId := a], nextId := t.nextId + 1);
            if caller.role != Admin then Outcome(Ok(a), t1)
            else
              var m1 := M.HandedOver(m, Some(target), now);
              if !M.SchemaValid(m1) then Outcome(Err(ValidationFailed), t1)
              else Outcome(Ok(a), t1.(materiels := t1.materiels[materielId := m1]))
  }

  /** `createAllocation`. */
  method CreateAllocation(db: Db, caller: Caller, materielId: Id, userId: Option<Id>,
                          i: AllocationInput, now: int) returns (r: Result<Allocation>)
    modifies db
    ensures Outcome(r, db.Snapshot()) == CreateOutcome(old(db.Snapshot()), caller, materielId, userId, i, now)
  {
    ghost var t0 := db.Snapshot();
    if materielId !in db.materiels {
      return Err(NotFound);
    }
    var materiel := db.materiels[materielId];
    if materiel.status != M.Disponible {
      return Err(InvalidState);
    }
    var target := TargetUser(caller, userId);
    var duplicates := ActiveOfUser(db.Snapshot(), materielId, target);
    if duplicates != {} {
      return Err(Conflict);
    }
    var allocation := Requested(caller, materielId, userId, i, now);
    var saved := db.AddAllocation(allocation);
    if !saved {
      return Err(ValidationFailed);
    }
    CreateOutcomeOnceStored(t0, caller, materielId, userId, i, now);
    if caller.role == Admin {
      materiel := materiel.(status := M.Affecte);
      materiel := materiel.(assignedTo := Some(target));
      materiel := materiel.(assignedDate := Some(now));
      saved := db.SaveMateriel(materielId, materiel);
      if !saved {
        return Err(ValidationFailed);
      }
    }
    r := Ok(allocation);
  }

  /** What a create answers once the allocation is stored. */
  lemma CreateOutcomeOnceStored(t: Tables, caller: Caller, materielId: Id, userId: Option<Id>, i: AllocationInput, now: int)
    requires materielId in t.materiels && t.materiels[materielId].status == M.Disponible
    requires ActiveOfUser(t, materielId, TargetUser(caller, userId)) == {}
    requires SchemaValid(Requested(caller, materielId, userId, i, now))
    ensures var a := Requested(caller, materielId, userId, i, now);
            var t1 := t.(allocations := t.allocations[t.nextId := a], nextId := t.nextId + 1);
            var m1 := M.HandedOver(t.materiels[materielId], Some(TargetUser(caller, userId)), now);
            CreateOutcome(t, caller, materielId, userId, i, now)
            == if caller.role != Admin then Outcome(Ok(a), t1)
               else if !M.SchemaValid(m1) then Outcome(Err(ValidationFailed), t1)
               else Outcome(Ok(a), t1.(materiels := t1.materiels[materielId := m1]))
  {
  }

  // ---------------------------------------------------------------- update

  function UpdateOutcome(t: Tables, caller: Caller, id: Id, p: AllocationPatch): (o: Outcome<Allocation>)
    ensures o.result.Ok? <==>
      && id in t.allocations
      && OwnerCheck(caller, t.allocations[id].user).None?
      && t.allocations[id].status == Active
      && PatchValid(p)
    ensures o.result.Ok? ==> o.tables == t.(allocations := t.allocations[id := ApplyPatch(t.allocations[id], p)])
    ensures o.result.Err? ==> o.tables == t
  {
    if id !in t.allocations then Outcome(Err(NotFound), t)
    else
      var a := t.allocations[id];
      var denied := OwnerCheck(caller, a.user);
      if denied.Some? then Outcome(Err(denied.value), t)
      else if a.status != Active then Outcome(Err(InvalidState), t)
      else if !PatchValid(p) then Outcome(Err(ValidationFailed), t)
      else
        var a1 := ApplyPatch(a, p);
        Outcome(Ok(a1), t.(allocations := t.allocations[id := a1]))
  }

  /** `updateAllocation`: the owner-or-staff guard, then an edit of any
      allocation whose status is `active` (the `pending` alternative of the
      guard names a status the schema does not have). */
  method UpdateAllocation(db: Db, caller: Caller, id: Id, p: AllocationPatch) returns (r: Result<Allocation>)
    modifies db
    ensures Outcome(r, db.Snapshot()) == UpdateOutcome(old(db.Snapshot()), caller, id, p)
  {
    if id !in db.allocations {
      return Err(NotFound);
    }
    var allocation := db.allocations[id];
    var denied := OwnerCheck(caller, allocation.user);
    if denied.Some? {
      return Err(denied.value);
    }
    if allocation.status != Active {
      return Err(InvalidState);
    }
    if !PatchValid(p) {
      return Err(ValidationFailed);
    }
    allocation := ApplyPatch(allocation, p);
    db.allocations := db.allocations[id := allocation];
    r := Ok(allocation);
  }

  // --------------------------------------------------------------- approve

  function ApproveOutcome(t: Tables, caller: Caller, id: Id, now: int): (o: Outcome<Allocation>)
    ensures o.result.Ok? <==>
      && id in t.allocations
      && t.allocations[id].approvalStatus == Pending
      && t.allocations[id].materiel in t.materiels
      && t.materiels[t.allocations[id].materiel].status == M.Disponible
      && SchemaValid(ApprovedBy(t.allocations[id], caller, now))
      && M.SchemaValid(M.HandedOver(t.materiels[t.allocations[id].materiel], t.allocations[id].user, now))
    ensures o.result.Ok? ==>
      var a := t.allocations[id];
      && o.result.value == ApprovedBy(a, caller, now)
      && o.tables == t.(allocations := t.allocations[id := o.result.value],
                        materiels := t.materiels[a.materiel := M.HandedOver(t.materiels[a.materiel], a.user, now)])
    ensures o.result.Err? && o.result.error != ServerError ==> o.tables == t
  {
    if id !in t.allocations then Outcome(Err(NotFound), t)
    else
      var a := t.allocations[id];
      if a.approvalStatus != Pending then Outcome(Err(InvalidState), t)
      else if a.materiel !in t.materiels then Outcome(Err(ServerError), t)
      else
        var m := t.materiels[a.materiel];
        if m.status != M.Disponible then Outcome(Err(InvalidState), t)
        else
          var a1 := ApprovedBy(a, caller, now);
          if !SchemaValid(a1) then Outcome(Err(ServerError), t)
          else
            var t1 := t.(allocations := t.allocations[id := a1]);
            var m1 := M.HandedOver(m, a.user, now);
            if !M.SchemaValid(m1) then Outcome(Err(ServerError), t1)
            else Outcome(Ok(a1), t1.(materiels := t1.materiels[a.materiel := m1]))
  }

  /** `approveAllocation`, open to administrators and technicians. A missing
      asset is dereferenced and the handler fails with a server error. */
  method ApproveAllocation(db: Db, caller: Caller, id: Id, now: int) returns (r: Result<Allocation>)
    requires IsStaff(caller.role)
    modifies db
    ensures Outcome(r, db.Snapshot()) == ApproveOutcome(old(db.Snapshot()), caller, id, now)
  {
    if id !in db.allocations {
      return Err(NotFound);
    }
    var allocation := db.allocations[id];
    if allocation.approvalStatus != Pending {
      return Err(InvalidState);
    }
    if allocation.materiel !in db.materiels {
      return Err(ServerError);
    }
    var materiel := db.materiels[allocation.materiel];
    if materiel.status != M.Disponible {
      return Err(InvalidState);
    }
    allocation := allocation.(approvalStatus := Approved);
    allocation := allocation.(approvedBy := Some(caller.id));
    allocation := allocation.(approvalDate := Some(now));
    allocation := allocation.(status := Active);
    if !SchemaValid(allocation) {
      return Err(ServerError);
    }
    db.allocations := db.allocations[id := allocation];
    materiel := materiel.(status := M.Affecte);
    materiel := materiel.(assignedTo := allocation.user);
    materiel := materiel.(assignedDate := Some(now));
    if !M.SchemaValid(materiel) {
      return Err(ServerError);
    }
    db.materiels := db.materiels[allocation.materiel := materiel];
    r := Ok(allocation);
  }

  // ---------------------------------------------------------------- reject

  /** The line a rejection appends to the notes. */
  function RejectionLine(reason: Option<string>): string {
    "\nRejection reason: " + Render(reason)
  }

  function RejectOutcome(t: Tables, caller: Caller, id: Id, reason: Option<string>, now: int): (o: Outcome<Allocation>)
    ensures o.result.Ok? <==>
      id in t.allocations && t.allocations[id].approvalStatus == Pending
      && SchemaValid(RejectedBy(t.allocations[id], caller, reason, now))
    ensures o.result.Ok? ==>
      var a := o.result.value;
      && a == RejectedBy(t.allocations[id], caller, reason, now)
      && a.approvalStatus == Rejected && a.status == Cancelled && a.approvedBy == Some(caller.id)
      && a.notes == Some(AppendNote(t.allocations[id].notes, RejectionLine(reason)))
      && a.materiel == t.allocations[id].materiel && a.user == t.allocations[id].user
      && o.tables == t.(allocations := t.allocations[id := a])
    ensures o.result.Err? ==> o.tables == t
  {
    if id !in t.allocations then Outcome(Err(NotFound), t)
    else
      var a := t.allocations[id];
      if a.approvalStatus != Pending then Outcome(Err(InvalidState), t)
      else
        var a1 := RejectedBy(a, caller, reason, now);
        if !SchemaValid(a1) then Outcome(Err(ServerError), t)
        else Outcome(Ok(a1), t.(allocations := t.allocations[id := a1]))
  }

  /** `rejectAllocation`, open to administrators and technicians. The asset
      is not touched. */
  method RejectAllocation(db: Db, caller: Caller, id: Id, reason: Option<string>, now: int) returns (r: Result<Allocation>)
    requires IsStaff(caller.role)
    modifies db
    ensures Outcome(r, db.Snapshot()) == RejectOutcome(old(db.Snapshot()), caller, id, reason, now)
  {
    if id !in db.allocations {
      return Err(NotFound);
    }
    var allocation := db.allocations[id];
    if allocation.approvalStatus != Pending {
      return Err(InvalidState);
    }
    allocation := allocation.(approvalStatus := Rejected);
    allocation := allocation.(approvedBy := Some(caller.id));
    allocation := allocation.(approvalDate := Some(now));
    allocation := allocation.(status := Cancelled);
    allocation := allocation.(notes := Some(AppendNote(allocation.notes, RejectionLine(reason))));
    if !SchemaValid(allocation) {
      return Err(ServerError);
    }
    db.allocations := db.allocations[id := allocation];
    r := Ok(allocation);
  }

  // ---------------------------------------------------------------- return

  /** The body of a return. */
  datatype ReturnInput = ReturnInput(returnCondition: Option<string>, damageReport: Option<string>, returnNotes: Option<string>)

  function Returned(a: Allocation, caller: Caller, ri: ReturnInput, now: int): (r: Allocation)
    ensures r.status == AllocationModel.Returned && r.returnDate == Some(now) && r.returnedBy == Some(caller.id)
    ensures r.materiel == a.materiel && r.user == a.user && r.approvalStatus == a.approvalStatus
    ensures forall n :: !IsOverdue(r, n)
    ensures SchemaValid(r) <==> SchemaValid(a.(returnCondition := ri.returnCondition))
  {
    a.(status := AllocationModel.Returned, returnDate := Some(now), returnCondition := ri.returnCondition,
       damageReport := ri.damageReport, returnNotes := ri.returnNotes, returnedBy := Some(caller.id))
  }

  function ReturnOutcome(t: Tables, caller: Caller, id: Id, ri: ReturnInput, now: int): (o: Outcome<Allocation>)
    ensures o.result.Ok? <==>
      && id in t.allocations
      && t.allocations[id].status == Active
      && OwnerCheck(caller, t.allocations[id].user).None?
      && SchemaValid(Returned(t.allocations[id], caller, ri, now))
      && t.allocations[id].materiel in t.materiels
      && M.SchemaValid(M.Released(t.materiels[t.allocations[id].materiel]))
    ensures id in t.allocations && t.allocations[id].status != Active ==> o == Outcome(Err(InvalidState), t)
    ensures o.result.Ok? ==>
      var a := t.allocations[id];
      && o.result.value == Returned(a, caller, ri, now)
      && o.tables == t.(allocations := t.allocations[id := o.result.value],
                        materiels := t.materiels[a.materiel := M.Released(t.materiels[a.materiel])])
    ensures o.result.Err? && o.result.error != ServerError ==> o.tables == t
  {
    if id !in t.allocations then Outcome(Err(NotFound), t)
    else
      var a := t.allocations[id];
      if a.status != Active then Outcome(Err(InvalidState), t)
      else
        var denied := OwnerCheck(caller, a.user);
        if denied.Some? then Outcome(Err(denied.value), t)
        else
          var a1 := Returned(a, caller, ri, now);
          if !SchemaValid(a1) then Outcome(Err(ServerError), t)
          else
            var t1 := t.(allocations := t.allocations[id := a1]);
            if a.materiel !in t.materiels then Outcome(Err(ServerError), t1)
            else
              var m1 := M.Released(t.materiels[a.materiel]);
              if !M.SchemaValid(m1) then Outcome(Err(ServerError), t1)
              else Outcome(Ok(a1), t1.(materiels := t1.materiels[a.materiel := m1]))
  }

  /** `returnAllocation`: the status check comes before the owner check. The
      allocation is saved before the asset is loaded, so a missing asset
      leaves the allocation returned and the handler failing. */
  method ReturnAllocation(db: Db, caller: Caller, id: Id, ri: ReturnInput, now: int) returns (r: Result<Allocation>)
    modifies db
    ensures Outcome(r, db.Snapshot()) == ReturnOutcome(old(db.Snapshot()), caller, id, ri, now)
  {
    if id !in db.allocations {
      return Err(NotFound);
    }
    var allocation := db.allocations[id];
    if allocation.status != Active {
      return Err(InvalidState);
    }
    var denied := OwnerCheck(caller, allocation.user);
    if denied.Some? {
      return Err(denied.value);
    }
    allocation := allocation.(status := AllocationModel.Returned);
    allocation := allocation.(returnDate := Some(now));
    allocation := allocation.(returnCondition := ri.returnCondition);
    allocation := allocation.(damageReport := ri.damageReport);
    allocation := allocation.(returnNotes := ri.returnNotes);
    allocation := allocation.(returnedBy := Some(caller.id));
    if !SchemaValid(allocation) {
      return Err(ServerError);
    }
    db.allocations := db.allocations[id := allocation];
    if allocation.materiel !in db.materiels {
      return Err(ServerError);
    }
    var materiel := db.materiels[allocation.materiel];
    materiel := materiel.(status := M.Disponible);
    materiel := materiel.(assignedTo := None);
    materiel := materiel.(assignedDate := None);
    if !M.SchemaValid(materiel) {
      return Err(ServerError);
    }
    db.materiels := db.materiels[allocation.materiel := materiel];
    r := Ok(allocation);
  }

  // ---------------------------------------------------------------- cancel

  function CancelLine(caller: Caller): string {
    "\nCancelled by: " + caller.name
  }

  function CancelOutcome(t: Tables, caller: Caller, id: Id): (o: Outcome<Allocation>)
    ensures o.result.Ok? <==>
      && id in t.allocations
      && t.allocations[id].status == Active
      && OwnerCheck(caller, t.allocations[id].user).None?
      && SchemaValid(CancelledBy(t.allocations[id], caller))
    ensures o.result.Ok? ==>
      && o.result.value == CancelledBy(t.allocations[id], caller)
      && o.result.value.status == Cancelled
      && o.tables == t.(allocations := t.allocations[id := o.result.value])
    ensures o.result.Err? ==> o.tables == t
  {
    if id !in t.allocations then Outcome(Err(NotFound), t)
    else
      var a := t.allocations[id];
      if a.status != Active then Outcome(Err(InvalidState), t)
      else
        var denied := OwnerCheck(caller, a.user);
        if denied.Some? then Outcome(Err(denied.value), t)
        else
          var a1 := CancelledBy(a, caller);
          if !SchemaValid(a1) then Outcome(Err(ServerError), t)
          else Outcome(Ok(a1), t.(allocations := t.allocations[id := a1]))
  }

  /** `cancelAllocation` as written: the status is tested after it has been
      set to `cancelled`, so the branch that would release the asset never
      runs and only the allocation changes. */
  method CancelAllocation(db: Db, caller: Caller, id: Id) returns (r: Result<Allocation>)
    modifies db
    ensures Outcome(r, db.Snapshot()) == CancelOutcome(old(db.Snapshot()), caller, id)
  {
    if id !in db.allocations {
      return Err(NotFound);
    }
    var allocation := db.allocations[id];
    if allocation.status != Active {
      return Err(InvalidState);
    }
    var denied := OwnerCheck(caller, allocation.user);
    if denied.Some? {
      return Err(denied.value);
    }
    allocation := allocation.(status := Cancelled);
    allocation := allocation.(notes := Some(AppendNote(allocation.notes, CancelLine(caller))));
    if !SchemaValid(allocation) {
      return Err(ServerError);
    }
    db.allocations := db.allocations[id := allocation];
    r := Ok(allocation);
  }

  /** The evidently intended cancel: when the allocation was active, its
      asset is released as a return would release it. */
  function CancelRestoringOutcome(t: Tables, caller: Caller, id: Id): (o: Outcome<Allocation>)
    ensures o.result.Ok? <==>
      (&& CancelOutcome(t, caller, id).result.Ok?
       && t.allocations[id].materiel in t.materiels
       && M.SchemaValid(M.Released(t.materiels[t.allocations[id].materiel])))
    ensures o.result.Ok? ==>
      var a := t.allocations[id];
      && o.result == CancelOutcome(t, caller, id).result
      && o.tables == CancelOutcome(t, caller, id).tables.(materiels := t.materiels[a.materiel := M.Released(t.materiels[a.materiel])])
  {
    var c := CancelOutcome(t, caller, id);
    if c.result.Err? then c
    else
      var a := t.allocations[id];
      if a.materiel !in t.materiels then Outcome(Err(ServerError), c.tables)
      else
        var m1 := M.Released(t.materiels[a.materiel]);
        if !M.SchemaValid(m1) then Outcome(Err(ServerError), c.tables)
        else Outcome(c.result, c.tables.(materiels := c.tables.materiels[a.materiel := m1]))
  }

  /** The corrected handler: the status is remembered before it is
      overwritten, and an active allocation's asset is released. */
  method CancelAllocationRestoring(db: Db, caller: Caller, id: Id) returns (r: Result<Allocation>)
    modifies db
    ensures Outcome(r, db.Snapshot()) == CancelRestoringOutcome(old(db.Snapshot()), caller, id)
  {
    if id !in db.allocations {
      return Err(NotFound);
    }
    var allocation := db.allocations[id];
    var wasActive := allocation.status == Active;
    if !wasActive {
      return Err(InvalidState);
    }
    var denied := OwnerCheck(caller, allocation.user);
    if denied.Some? {
      return Err(denied.value);
    }
    allocation := allocation.(status := Cancelled);
    allocation := allocation.(notes := Some(AppendNote(allocation.notes, CancelLine(caller))));
    if !SchemaValid(allocation) {
      return Err(ServerError);
    }
    db.allocations := db.allocations[id := allocation];
    if wasActive {
      if allocation.materiel !in db.materiels {
        return Err(ServerError);
      }
      var materiel := db.materiels[allocation.materiel];
      materiel := materiel.(status := M.Disponible);
      materiel := materiel.(assignedTo := None);
      materiel := materiel.(assignedDate := None);
      if !M.SchemaValid(materiel) {
        return Err(ServerError);
      }
      db.materiels := db.materiels[allocation.materiel := materiel];
    }
    r := Ok(allocation);
  }

  // ---------------------------------------------------------------- properties

  /** Approval is one-way: once an allocation is approved, approving it
      again fails and changes nothing. */
  lemma ApproveTwiceFails(t: Tables, caller: Caller, again: Caller, id: Id, now: int, later: int)
    requires ApproveOutcome(t, caller, id, now).result.Ok?
    ensures var t1 := ApproveOutcome(t, caller, id, now).tables;
            ApproveOutcome(t1, again, id, later) == Outcome(Err(InvalidState), t1)
  {
  }

  /** A rejected allocation can be neither approved nor rejected again. */
  lemma RejectIsFinal(t: Tables, caller: Caller, again: Caller, id: Id, reason: Option<string>, now: int, later: int)
    requires RejectOutcome(t, caller, id, reason, now).result.Ok?
    ensures var t1 := RejectOutcome(t, caller, id, reason, now).tables;
            && ApproveOutcome(t1, again, id, later) == Outcome(Err(InvalidState), t1)
            && RejectOutcome(t1, again, id, reason, later) == Outcome(Err(InvalidState), t1)
            && ReturnOutcome(t1, again, id, ReturnInput(None, None, None), later) == Outcome(Err(InvalidState), t1)
  {
  }

  /** Every allocation handler keeps the store's identifiers below `nextId`
      and keeps "an asset names an assignee exactly when it is affecté". */
  lemma CreateKeepsAssigneeInvariant(t: Tables, caller: Caller, materielId: Id, userId: Option<Id>,
                                     i: AllocationInput, now: int)
    requires AssigneeIffAllocated(t)
    ensures AssigneeIffAllocated(CreateOutcome(t, caller, materielId, userId, i, now).tables)
  {
  }

  lemma ApproveKeepsAssigneeInvariant(t: Tables, caller: Caller, id: Id, now: int)
    requires AssigneeIffAllocated(t)
    ensures AssigneeIffAllocated(ApproveOutcome(t, caller, id, now).tables)
  {
  }

  lemma ReturnKeepsAssigneeInvariant(t: Tables, caller: Caller, id: Id, ri: ReturnInput, now: int)
    requires AssigneeIffAllocated(t)
    ensures AssigneeIffAllocated(ReturnOutcome(t, caller, id, ri, now).tables)
  {
  }

  lemma CancelRestoringKeepsAssigneeInvariant(t: Tables, caller: Caller, id: Id)
    requires AssigneeIffAllocated(t)
    ensures AssigneeIffAllocated(CancelRestoringOutcome(t, caller, id).tables)
  {
  }

  /** An administrator's allocation followed by its return gives the asset
      back: both steps succeed on a valid, available asset, and the asset ends
      as it was apart from being released. */
  lemma {:induction false} CreateThenReturn(t: Tables, admin: Caller, materielId: Id, userId: Option<Id>,
                                            i: AllocationInput, ri: ReturnInput, now: int, later: int)
    requires WellFormed(t) && admin.role == Admin
    requires materielId in t.materiels && t.materiels[materielId].status == M.Disponible
    requires M.SchemaValid(t.materiels[materielId])
    requires ActiveOfUser(t, materielId, TargetUser(admin, userId)) == {}
    requires SchemaValid(Requested(admin, materielId, userId, i, now))
    requires M.InEnum(ri.returnCondition, M.ConditionLabels)
    ensures var c := CreateOutcome(t, admin, materielId, userId, i, now);
            && c.result.Ok?
            && var rt := ReturnOutcome(c.tables, admin, t.nextId, ri, later);
               && rt.result.Ok?
               && rt.tables.materiels == t.materiels[materielId := M.Released(t.materiels[materielId])]
               && rt.tables.allocations[t.nextId].status == AllocationModel.Returned
  {
    var m := t.materiels[materielId];
    var a := Requested(admin, materielId, userId, i, now);
    AdminCreateSucceeds(t, admin, materielId, userId, i, now);
    var c := CreateOutcome(t, admin, materielId, userId, i, now);
    assert c.tables.allocations[t.nextId] == a;
    assert SchemaValid(Returned(a, admin, ri, later));
    assert M.SchemaValid(M.Released(m));
  }

  /** An administrator's create that passes its checks on a valid asset adds
      the approved allocation and hands the asset over to its user. */
  lemma AdminCreateSucceeds(t: Tables, admin: Caller, materielId: Id, userId: Option<Id>,
                            i: AllocationInput, now: int)
    requires admin.role == Admin
    requires materielId in t.materiels && t.materiels[materielId].status == M.Disponible
    requires M.SchemaValid(t.materiels[materielId])
    requires ActiveOfUser(t, materielId, TargetUser(admin, userId)) == {}
    requires SchemaValid(Requested(admin, materielId, userId, i, now))
    ensures var a := Requested(admin, materielId, userId, i, now);
            var m1 := M.HandedOver(t.materiels[materielId], Some(TargetUser(admin, userId)), now);
            && a.approvalStatus == Approved && M.Released(m1) == M.Released(t.materiels[materielId])
            && CreateOutcome(t, admin, materielId, userId, i, now)
               == Outcome(Ok(a), t.(allocations := t.allocations[t.nextId := a], nextId := t.nextId + 1,
                                    materiels := t.materiels[materielId := m1]))
  {
    var m1 := M.HandedOver(t.materiels[materielId], Some(TargetUser(admin, userId)), now);
    assert M.SchemaValid(m1);
  }

  /** The duplicate check of a create is per user, and a create by anyone but
      an administrator leaves the asset available: two different users can
      each hold an active allocation of the same asset. */
  lemma {:induction false} TwoUsersTwoActiveAllocations(t: Tables, u1: Caller, u2: Caller, materielId: Id,
                                                        i: AllocationInput, now: int)
    requires WellFormed(t)
    requires u1.role != Admin && u2.role != Admin && u1.id != u2.id
    requires materielId in t.materiels && t.materiels[materielId].status == M.Disponible
    requires ActiveAllocationsOf(t, materielId) == {}
    requires SchemaValid(Requested(u1, materielId, None, i, now))
    ensures var c1 := CreateOutcome(t, u1, materielId, None, i, now);
            var c2 := CreateOutcome(c1.tables, u2, materielId, None, i, now);
            && c1.result.Ok? && c2.result.Ok?
            && ActiveAllocationsOf(c2.tables, materielId) == {t.nextId, t.nextId + 1}
  {
    var a1 := Requested(u1, materielId, None, i, now);
    var a2 := Requested(u2, materielId, None, i, now);
    assert a2 == a1.(user := Some(u2.id), allocatedBy := u2.id);
    assert ActiveOfUser(t, materielId, u1.id) == {};
    UserCreateSucceeds(t, u1, materielId, None, i, now);
    var t1 := t.(allocations := t.allocations[t.nextId := a1], nextId := t.nextId + 1);
    assert ActiveOfUser(t1, materielId, u2.id) == {};
    UserCreateSucceeds(t1, u2, materielId, None, i, now);
    var t2 := t1.(allocations := t1.allocations[t1.nextId := a2], nextId := t1.nextId + 1);
    ActiveAfterTwoInserts(t, t2, materielId, a1, a2);
    var c1 := CreateOutcome(t, u1, materielId, None, i, now);
    assert c1.tables == t1 && c1.result.Ok?;
    var c2 := CreateOutcome(c1.tables, u2, materielId, None, i, now);
    assert c2.tables == t2 && c2.result.Ok?;
  }

  /** A create by anyone but an administrator that passes its checks only
      adds the pending allocation: the asset and every other collection are
      left as they were. */
  lemma UserCreateSucceeds(t: Tables, caller: Caller, materielId: Id, userId: Option<Id>,
                           i: AllocationInput, now: int)
    requires caller.role != Admin
    requires materielId in t.materiels && t.materiels[materielId].status == M.Disponible
    requires ActiveOfUser(t, materielId, caller.id) == {}
    requires SchemaValid(Requested(caller, materielId, userId, i, now))
    ensures var a := Requested(caller, materielId, userId, i, now);
            && a.approvalStatus == Pending && a.user == Some(caller.id)
            && CreateOutcome(t, caller, materielId, userId, i, now)
               == Outcome(Ok(a), t.(allocations := t.allocations[t.nextId := a], nextId := t.nextId + 1))
  {
  }

  /** The active allocations of an asset that had none, once two active
      allocations of it have been inserted under the next two identifiers. */
  lemma ActiveAfterTwoInserts(t: Tables, t2: Tables, materielId: Id, a1: Allocation, a2: Allocation)
    requires WellFormed(t) && ActiveAllocationsOf(t, materielId) == {}
    requires t2.allocations == t.allocations[t.nextId := a1][t.nextId + 1 := a2]
    requires a1.materiel == materielId && a1.status == Active
    requires a2.materiel == materielId && a2.status == Active
    ensures ActiveAllocationsOf(t2, materielId) == {t.nextId, t.nextId + 1}
  {
    forall k
      ensures k in ActiveAllocationsOf(t2, materielId) <==> k == t.nextId || k == t.nextId + 1
    {
      if k in t.allocations {
        assert k !in ActiveAllocationsOf(t, materielId);
      }
    }
  }

  /** As written, cancelling an approved allocation leaves its asset
      `affecté` to the user although no active allocation of it remains. */
  lemma CancelLeavesAssetAssigned(t: Tables, caller: Caller, id: Id)
    requires id in t.allocations && t.allocations[id].materiel in t.materiels
    requires t.materiels[t.allocations[id].materiel].status == M.Affecte
    requires ActiveAllocationsOf(t, t.allocations[id].materiel) == {id}
    requires CancelOutcome(t, caller, id).result.Ok?
    ensures var t1 := CancelOutcome(t, caller, id).tables;
            && t1.materiels[t.allocations[id].materiel].status == M.Affecte
            && ActiveAllocationsOf(t1, t.allocations[id].materiel) == {}
  {
    var t1 := CancelOutcome(t, caller, id).tables;
    var mid := t.allocations[id].materiel;
    assert forall k :: k in ActiveAllocationsOf(t1, mid) ==> k in ActiveAllocationsOf(t, mid) && k != id;
  }

  /** The corrected cancel releases the asset of the allocation it cancels. */
  lemma CancelRestoringReleases(t: Tables, caller: Caller, id: Id)
    requires CancelRestoringOutcome(t, caller, id).result.Ok?
    ensures var t1 := CancelRestoringOutcome(t, caller, id).tables;
            var mid := t.allocations[id].materiel;
            && t1.materiels[mid].status == M.Disponible && t1.materiels[mid].assignedTo.None?
            && id !in ActiveAllocationsOf(t1, mid)
  {
  }
  /** An edit may name `approvalStatus`, and the owner of an allocation may
      edit it: a user who has just requested an asset can approve the
      request themselves, and the asset stays available, unassigned. */
  lemma {:induction false} OwnerEditApprovesOwnRequest(t: Tables, user: Caller, materielId: Id, i: AllocationInput, now: int)
    requires user.role == Utilisateur
    requires CreateOutcome(t, user, materielId, None, i, now).result.Ok?
    ensures var c := CreateOutcome(t, user, materielId, None, i, now);
            var u := UpdateOutcome(c.tables, user, t.nextId, NoEdit.(approvalStatus := Some(Approved)));
            && c.result.value.approvalStatus == Pending
            && u.result.Ok? && u.result.value.approvalStatus == Approved && u.result.value.status == Active
            && u.tables.materiels[materielId] == t.materiels[materielId]
            && u.tables.materiels[materielId].status == M.Disponible
  {
    var c := CreateOutcome(t, user, materielId, None, i, now);
    var a := c.result.value;
    assert c.tables.allocations[t.nextId] == a;
    assert a.user == Some(user.id) && a.status == Active;
  }
}
