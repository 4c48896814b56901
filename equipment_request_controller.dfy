/** Equipment requests: a user asks for a kind of asset, a technical manager
    sets the request's status and, on approval, may hand an asset over to the
    requester directly. */
module EquipmentRequestController {
  import opened Common
  import opened Store
  import opened EquipmentRequestModel
  import M = MaterielModel
  import JsText

  // ---------------------------------------------------------------- create

  /** `createRequest`, open to every signed-in user: the requester is the
      caller and the request starts pending. */
  function CreateOutcome(t: Tables, caller: Caller, i: RequestInput, now: int): (o: Outcome<EquipmentRequest>)
    ensures o.result.Ok? <==> SchemaValid(NewRequest(caller.id, i, now))
    ensures o.result.Ok? ==>
      && o.result.value.requestedBy == caller.id && o.result.value.status == Some(Pending)
      && o.result.value.approvedBy.None? && o.result.value.assignedEquipment.None?
      && o.tables == t.(requests := t.requests[t.nextId := o.result.value], nextId := t.nextId + 1)
    ensures o.result.Err? ==> o == Outcome(Err(ServerError), t)
  {
    var r := NewRequest(caller.id, i, now);
    if !SchemaValid(r) then Outcome(Err(ServerError), t)
    else Outcome(Ok(r), t.(requests := t.requests[t.nextId := r], nextId := t.nextId + 1))
  }

  method CreateRequest(db: Db, caller: Caller, i: RequestInput, now: int) returns (r: Result<EquipmentRequest>)
    modifies db
    ensures Outcome(r, db.Snapshot()) == CreateOutcome(old(db.Snapshot()), caller, i, now)
  {
    var request := NewRequest(caller.id, i, now);
    if !SchemaValid(request) {
      return Err(ServerError);
    }
    var id := db.FreshId();
    db.requests := db.requests[id := request];
    r := Ok(request);
  }

  /** A request is created exactly when it names one of the eight kinds, has
      a non-blank description and purpose, and says when it is needed. */
  lemma CreateSucceedsIff(t: Tables, caller: Caller, i: RequestInput, now: int)
    ensures CreateOutcome(t, caller, i, now).result.Ok? <==>
      && i.equipmentType.Some? && i.equipmentType.value in RequestTypeLabels
      && i.description.Some? && JsText.Trim(i.description.value) != ""
      && i.purpose.Some? && JsText.Trim(i.purpose.value) != ""
      && i.neededBy.Some?
  {
  }

  // ---------------------------------------------------------------- status update

  datatype StatusUpdate = StatusUpdate(
    status: EnumInput<RequestStatus>,
    assignedEquipment: Option<Id>,
    notes: Option<string>,
    rejectionReason: Option<string>)

  /** An update hands an asset over when it approves and names an asset. */
  predicate Grants(u: StatusUpdate) {
    u.status == Listed(Approved) && u.assignedEquipment.Some?
  }

  /** The request as the handler leaves it before saving: the status
      replaced, the caller and the time stamped as approver whatever the
      status, notes and rejection reason replaced only when given, and the
      asset recorded only when the update grants one. */
  function Stamped(r: EquipmentRequest, caller: Caller, u: StatusUpdate, now: int): (s: EquipmentRequest)
    ensures s.status == Assigned(u.status)
    ensures s.approvedBy == Some(caller.id) && s.approvedDate == Some(now)
    ensures s.notes == (if Truthy(u.notes) then u.notes else r.notes)
    ensures s.rejectionReason == (if Truthy(u.rejectionReason) then u.rejectionReason else r.rejectionReason)
    ensures Grants(u) ==> s.assignedEquipment == u.assignedEquipment && s.assignedDate == Some(now)
    ensures !Grants(u) ==> s.assignedEquipment == r.assignedEquipment && s.assignedDate == r.assignedDate
    ensures s.(status := r.status, approvedBy := r.approvedBy, approvedDate := r.approvedDate, notes := r.notes,
               rejectionReason := r.rejectionReason, assignedEquipment := r.assignedEquipment,
               assignedDate := r.assignedDate) == r
  {
    var s := r.(status := Assigned(u.status), approvedBy := Some(caller.id), approvedDate := Some(now));
    var s := if Truthy(u.notes) then s.(notes := u.notes) else s;
    var s := if Truthy(u.rejectionReason) then s.(rejectionReason := u.rejectionReason) else s;
    if Grants(u) then s.(assignedEquipment := u.assignedEquipment, assignedDate := Some(now)) else s
  }

  /** The asset write of an approval: an update without validators on the
      asset named, which does nothing when no such asset exists. */
  function Handover(t: Tables, r: EquipmentRequest, u: StatusUpdate, now: int): (t1: Tables)
    ensures t1.(materiels := t.materiels) == t
    ensures Grants(u) && u.assignedEquipment.value in t.materiels ==>
      t1.materiels == t.materiels[u.assignedEquipment.value :=
        M.HandedOver(t.materiels[u.assignedEquipment.value], Some(r.requestedBy), now)]
    ensures !(Grants(u) && u.assignedEquipment.value in t.materiels) ==> t1 == t
  {
    if Grants(u) && u.assignedEquipment.value in t.materiels then
      var a := u.assignedEquipment.value;
      t.(materiels := t.materiels[a := M.HandedOver(t.materiels[a], Some(r.requestedBy), now)])
    else t
  }

  /** `updateRequestStatus`: any status may follow any other; the asset is
      written before the request is validated, so a request that fails its
      validators still leaves the asset handed over. */
  function UpdateStatusOutcome(t: Tables, caller: Caller, id: Id, u: StatusUpdate, now: int): (o: Outcome<EquipmentRequest>)
    ensures id !in t.requests ==> o == Outcome(Err(NotFound), t)
    ensures o.result.Ok? <==>
      id in t.requests && !u.status.Unlisted? && SchemaValid(Stamped(t.requests[id], caller, u, now))
    ensures o.result.Err? ==> o.result.error in {NotFound, ServerError} && o.tables.requests == t.requests
    ensures id in t.requests ==>
      o.tables.(requests := t.requests) == Handover(t, t.requests[id], u, now)
    ensures o.result.Ok? ==>
      && o.result.value == Stamped(t.requests[id], caller, u, now)
      && o.tables.requests == t.requests[id := o.result.value]
  {
    if id !in t.requests then Outcome(Err(NotFound), t)
    else
      var r := t.requests[id];
      var s := Stamped(r, caller, u, now);
      var t1 := Handover(t, r, u, now);
      if u.status.Unlisted? || !SchemaValid(s) then Outcome(Err(ServerError), t1)
      else Outcome(Ok(s), t1.(requests := t1.requests[id := s]))
  }

  /** `updateRequestStatus`, reserved to technical managers. */
  method UpdateRequestStatus(db: Db, caller: Caller, id: Id, u: StatusUpdate, now: int) returns (r: Result<EquipmentRequest>)
    requires caller.role == TechnicalManager
    modifies db
    ensures Outcome(r, db.Snapshot()) == UpdateStatusOutcome(old(db.Snapshot()), caller, id, u, now)
  {
    ghost var t0 := db.Snapshot();
    if id !in db.requests {
      return Err(NotFound);
    }
    var request := db.requests[id];
    request := request.(status := Assigned(u.status));
    request := request.(approvedBy := Some(caller.id));
    request := request.(approvedDate := Some(now));
    if Truthy(u.notes) {
      request := request.(notes := u.notes);
    }
    if Truthy(u.rejectionReason) {
      request := request.(rejectionReason := u.rejectionReason);
    }
    if u.status == Listed(Approved) && u.assignedEquipment.Some? {
      var asset := u.assignedEquipment.value;
      request := request.(assignedEquipment := Some(asset));
      request := request.(assignedDate := Some(now));
      if asset in db.materiels {
        db.materiels := db.materiels[asset := M.HandedOver(db.materiels[asset], Some(request.requestedBy), now)];
      }
    }
    assert request == Stamped(t0.requests[id], caller, u, now);
    assert db.Snapshot() == Handover(t0, t0.requests[id], u, now);
    if u.status.Unlisted? || !SchemaValid(request) {
      return Err(ServerError);
    }
    db.requests := db.requests[id := request];
    r := Ok(request);
  }

  /** No transition is checked: a stored request that passed its validators
      accepts every listed status, a rejected, fulfilled or cancelled one
      included, and an absent status as well. */
  lemma AnyStatusFollowsAny(t: Tables, caller: Caller, id: Id, u: StatusUpdate, now: int)
    requires id in t.requests && SchemaValid(t.requests[id])
    ensures UpdateStatusOutcome(t, caller, id, u, now).result.Ok? <==> !u.status.Unlisted?
  {
    var s := Stamped(t.requests[id], caller, u, now);
    assert s.equipmentType == t.requests[id].equipmentType && s.description == t.requests[id].description;
    assert s.purpose == t.requests[id].purpose && s.neededBy == t.requests[id].neededBy;
  }

  /** The hand-over of an approval keeps "an asset names an assignee exactly
      when it is affecté", whatever the update does to the request. */
  lemma UpdateStatusKeepsAssigneeInvariant(t: Tables, caller: Caller, id: Id, u: StatusUpdate, now: int)
    requires AssigneeIffAllocated(t)
    ensures AssigneeIffAllocated(UpdateStatusOutcome(t, caller, id, u, now).tables)
  {
    var o := UpdateStatusOutcome(t, caller, id, u, now);
    if id in t.requests && Grants(u) && u.assignedEquipment.value in t.materiels {
      var a := u.assignedEquipment.value;
      forall j | j in o.tables.materiels
        ensures o.tables.materiels[j].assignedTo.Some? <==> o.tables.materiels[j].status == M.Affecte
      {
        if j != a {
          assert o.tables.materiels[j] == t.materiels[j];
        }
      }
    }
  }

  // ---------------------------------------------------------------- available equipment

  /** The `getAvailableEquipment` filter: assets that are disponible, of the
      given type when a non-empty one is given. */
  function AvailableEquipment(t: Tables, equipmentType: Option<string>): (s: set<Id>)
    ensures forall id :: id in s <==>
      && id in t.materiels && t.materiels[id].status == M.Disponible
      && (Truthy(equipmentType) ==> t.materiels[id].kind == equipmentType.value)
  {
    set id | id in t.materiels && t.materiels[id].status == M.Disponible
      && (Truthy(equipmentType) ==> t.materiels[id].kind == equipmentType.value)
  }

  /** An approval that names an existing asset takes it out of the available
      list for every type, hands it to the requester, and leaves the
      availability of every other asset as it was. The asset need not have
      been available: an asset already lent, in maintenance or out of
      service is handed over all the same. */
  lemma ApprovalWithdrawsAsset(t: Tables, caller: Caller, id: Id, u: StatusUpdate, now: int, ty: Option<string>)
    requires id in t.requests && Grants(u) && u.assignedEquipment.value in t.materiels
    ensures var o := UpdateStatusOutcome(t, caller, id, u, now);
      && o.tables.materiels[u.assignedEquipment.value].assignedTo == Some(t.requests[id].requestedBy)
      && o.tables.materiels[u.assignedEquipment.value].status == M.Affecte
      && AvailableEquipment(o.tables, ty) == AvailableEquipment(t, ty) - {u.assignedEquipment.value}
  {
    var o := UpdateStatusOutcome(t, caller, id, u, now);
    var a := u.assignedEquipment.value;
    forall j | j in o.tables.materiels && j != a
      ensures o.tables.materiels[j] == t.materiels[j]
    {
    }
  }

  /** Updates that do not grant an asset leave every asset untouched. */
  lemma NoGrantNoAssetWrite(t: Tables, caller: Caller, id: Id, u: StatusUpdate, now: int)
    requires !Grants(u)
    ensures UpdateStatusOutcome(t, caller, id, u, now).tables.materiels == t.materiels
  {
  }

  /** A request that fails its validators on approval still leaves the asset
      handed over: the two writes are not atomic. */
  lemma FailedApprovalStillHandsOver(t: Tables, caller: Caller, id: Id, u: StatusUpdate, now: int)
    requires id in t.requests && Grants(u) && u.assignedEquipment.value in t.materiels
    requires !SchemaValid(t.requests[id])
    ensures var o := UpdateStatusOutcome(t, caller, id, u, now);
      && o.result == Err(ServerError)
      && o.tables.materiels[u.assignedEquipment.value].status == M.Affecte
  {
    var s := Stamped(t.requests[id], caller, u, now);
    assert s.equipmentType == t.requests[id].equipmentType && s.description == t.requests[id].description;
    assert s.purpose == t.requests[id].purpose && s.neededBy == t.requests[id].neededBy;
  }
}
