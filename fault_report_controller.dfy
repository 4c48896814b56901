/** Fault reports: any signed-in user reports a problem with an asset, and a
    report of critical severity takes the asset out of service at once;
    anyone may then move the report along its statuses. */
module FaultReportController {
  import opened Common
  import opened Store
  import opened FaultReportModel
  import M = MaterielModel

  // ---------------------------------------------------------------- create

  /** The asset write of a critical report: status hors_service, everything
      else, the assignee included, left as it was. */
  function Withdrawn(m: M.Materiel): (r: M.Materiel)
    ensures r.status == M.HorsService && r.(status := m.status) == m
  {
    m.(status := M.HorsService)
  }

  /** `createFaultReport`: the report is stored first; then, when the body's
      severity is critical, the asset it names is set hors_service by an
      update without validators, which does nothing when no such asset
      exists. The asset need not exist for the report to be stored. */
  function CreateOutcome(t: Tables, caller: Caller, i: FaultInput, now: int): (o: Outcome<FaultReport>)
    ensures o.result.Ok? <==> SchemaValid(NewFaultReport(caller.id, i, now))
    ensures o.result.Err? ==> o == Outcome(Err(ServerError), t)
    ensures o.result.Ok? ==>
      && o.result.value == NewFaultReport(caller.id, i, now)
      && o.tables.faultReports == t.faultReports[t.nextId := o.result.value]
      && o.tables.nextId == t.nextId + 1
      && o.tables.(faultReports := t.faultReports, nextId := t.nextId, materiels := t.materiels) == t
    ensures o.result.Ok? && i.severity == Some(Critical) && i.equipment.value in t.materiels ==>
      o.tables.materiels == t.materiels[i.equipment.value := Withdrawn(t.materiels[i.equipment.value])]
    ensures !(i.severity == Some(Critical) && i.equipment.Some? && i.equipment.value in t.materiels) ==>
      o.tables.materiels == t.materiels
  {
    var f := NewFaultReport(caller.id, i, now);
    if !SchemaValid(f) then Outcome(Err(ServerError), t)
    else
      var t1 := t.(faultReports := t.faultReports[t.nextId := f], nextId := t.nextId + 1);
      if i.severity == Some(Critical) && i.equipment.value in t.materiels then
        var a := i.equipment.value;
        Outcome(Ok(f), t1.(materiels := t1.materiels[a := Withdrawn(t1.materiels[a])]))
      else Outcome(Ok(f), t1)
  }

  method CreateFaultReport(db: Db, caller: Caller, i: FaultInput, now: int) returns (r: Result<FaultReport>)
    modifies db
    ensures Outcome(r, db.Snapshot()) == CreateOutcome(old(db.Snapshot()), caller, i, now)
  {
    var report := NewFaultReport(caller.id, i, now);
    if !SchemaValid(report) {
      return Err(ServerError);
    }
    var id := db.FreshId();
    db.faultReports := db.faultReports[id := report];
    if i.severity == Some(Critical) {
      var asset := i.equipment.value;
      if asset in db.materiels {
        var m := db.materiels[asset];
        db.materiels := db.materiels[asset := m.(status := M.HorsService)];
      }
    }
    r := Ok(report);
  }

  /** Taking an asset out of service keeps "an asset names an assignee
      exactly when it is affecté" precisely when that asset had no
      assignee: a critical report on a lent asset leaves it hors_service
      with its assignee still set. */
  lemma {:induction false} CreateKeepsAssigneeInvariantIff(t: Tables, caller: Caller, i: FaultInput, now: int)
    requires AssigneeIffAllocated(t)
    ensures var o := CreateOutcome(t, caller, i, now);
      AssigneeIffAllocated(o.tables) <==>
        !(o.result.Ok? && i.severity == Some(Critical) && i.equipment.value in t.materiels
          && t.materiels[i.equipment.value].assignedTo.Some?)
  {
    var o := CreateOutcome(t, caller, i, now);
    if o.result.Ok? && i.severity == Some(Critical) && i.equipment.value in t.materiels {
      var a := i.equipment.value;
      assert o.tables.materiels[a] == Withdrawn(t.materiels[a]);
      forall j | j in o.tables.materiels && j != a
        ensures o.tables.materiels[j] == t.materiels[j]
      {
      }
    }
  }

  // ---------------------------------------------------------------- update

  datatype FaultUpdate = FaultUpdate(
    status: EnumInput<FaultStatus>,
    assignedTechnician: Option<Id>,
    resolution: Option<string>,
    notes: Option<string>)

  /** The report as `updateFaultReport` leaves it before saving: the status
      replaced; acknowledgement stamped when the new status is acknowledged;
      the technician and the assignment date set when one is given;
      resolution, resolver and date set when the new status is resolved,
      the resolution cleared if none is given; notes replaced only when
      given. */
  function Revised(f: FaultReport, caller: Caller, u: FaultUpdate, now: int): (s: FaultReport)
    ensures s.status == Assigned(u.status)
    ensures u.status == Listed(Acknowledged) ==> s.acknowledgedBy == Some(caller.id) && s.acknowledgedDate == Some(now)
    ensures u.status != Listed(Acknowledged) ==> s.acknowledgedBy == f.acknowledgedBy && s.acknowledgedDate == f.acknowledgedDate
    ensures u.assignedTechnician.Some? ==> s.assignedTechnician == u.assignedTechnician && s.assignedDate == Some(now)
    ensures u.assignedTechnician.None? ==> s.assignedTechnician == f.assignedTechnician && s.assignedDate == f.assignedDate
    ensures u.status == Listed(Resolved) ==>
      s.resolution == u.resolution && s.resolvedBy == Some(caller.id) && s.resolvedDate == Some(now)
    ensures u.status != Listed(Resolved) ==>
      s.resolution == f.resolution && s.resolvedBy == f.resolvedBy && s.resolvedDate == f.resolvedDate
    ensures s.notes == (if Truthy(u.notes) then u.notes else f.notes)
    ensures s.(status := f.status, acknowledgedBy := f.acknowledgedBy, acknowledgedDate := f.acknowledgedDate,
               assignedTechnician := f.assignedTechnician, assignedDate := f.assignedDate,
               resolution := f.resolution, resolvedBy := f.resolvedBy, resolvedDate := f.resolvedDate,
               notes := f.notes) == f
  {
    var s := f.(status := Assigned(u.status));
    var s := if u.status == Listed(Acknowledged) then s.(acknowledgedBy := Some(caller.id), acknowledgedDate := Some(now)) else s;
    var s := if u.assignedTechnician.Some? then s.(assignedTechnician := u.assignedTechnician, assignedDate := Some(now)) else s;
    var s := if u.status == Listed(Resolved) then s.(resolution := u.resolution, resolvedBy := Some(caller.id), resolvedDate := Some(now)) else s;
    if Truthy(u.notes) then s.(notes := u.notes) else s
  }

  /** `updateFaultReport`: no status transition is checked and the asset is
      never touched; only the report changes. */
  function UpdateOutcome(t: Tables, caller: Caller, id: Id, u: FaultUpdate, now: int): (o: Outcome<FaultReport>)
    ensures id !in t.faultReports ==> o == Outcome(Err(NotFound), t)
    ensures o.result.Ok? <==>
      id in t.faultReports && !u.status.Unlisted? && SchemaValid(Revised(t.faultReports[id], caller, u, now))
    ensures o.result.Err? ==> o.tables == t && o.result.error in {NotFound, ServerError}
    ensures o.result.Ok? ==>
      && o.result.value == Revised(t.faultReports[id], caller, u, now)
      && o.tables == t.(faultReports := t.faultReports[id := o.result.value])
  {
    if id !in t.faultReports then Outcome(Err(NotFound), t)
    else
      var s := Revised(t.faultReports[id], caller, u, now);
      if u.status.Unlisted? || !SchemaValid(s) then Outcome(Err(ServerError), t)
      else Outcome(Ok(s), t.(faultReports := t.faultReports[id := s]))
  }

  /** `updateFaultReport`, open to every signed-in user. */
  method UpdateFaultReport(db: Db, caller: Caller, id: Id, u: FaultUpdate, now: int) returns (r: Result<FaultReport>)
    modifies db
    ensures Outcome(r, db.Snapshot()) == UpdateOutcome(old(db.Snapshot()), caller, id, u, now)
  {
    if id !in db.faultReports {
      return Err(NotFound);
    }
    var report := db.faultReports[id];
    report := report.(status := Assigned(u.status));
    if u.status == Listed(Acknowledged) {
      report := report.(acknowledgedBy := Some(caller.id));
      report := report.(acknowledgedDate := Some(now));
    }
    if u.assignedTechnician.Some? {
      report := report.(assignedTechnician := u.assignedTechnician);
      report := report.(assignedDate := Some(now));
    }
    if u.status == Listed(Resolved) {
      report := report.(resolution := u.resolution);
      report := report.(resolvedBy := Some(caller.id));
      report := report.(resolvedDate := Some(now));
    }
    if Truthy(u.notes) {
      report := report.(notes := u.notes);
    }
    if u.status.Unlisted? || !SchemaValid(report) {
      return Err(ServerError);
    }
    db.faultReports := db.faultReports[id := report];
    r := Ok(report);
  }

  /** A stored report that passed its validators accepts every listed
      status, an absent one included, whatever its current status: a closed
      report can be reopened and a resolved one resolved again. */
  lemma AnyFaultStatusFollowsAny(t: Tables, caller: Caller, id: Id, u: FaultUpdate, now: int)
    requires id in t.faultReports && SchemaValid(t.faultReports[id])
    ensures UpdateOutcome(t, caller, id, u, now).result.Ok? <==> !u.status.Unlisted?
  {
    var s := Revised(t.faultReports[id], caller, u, now);
    assert s.equipment == t.faultReports[id].equipment && s.faultType == t.faultReports[id].faultType;
    assert s.description == t.faultReports[id].description;
  }

  /** Resolving a report without giving a resolution text erases the text a
      previous resolution recorded. */
  lemma ResolvingWithoutTextErases(t: Tables, caller: Caller, id: Id, u: FaultUpdate, now: int)
    requires id in t.faultReports && SchemaValid(t.faultReports[id])
    requires u.status == Listed(Resolved) && u.resolution.None?
    ensures var o := UpdateOutcome(t, caller, id, u, now);
      o.result.Ok? && o.tables.faultReports[id].resolution.None? && o.tables.faultReports[id].resolvedBy == Some(caller.id)
  {
    AnyFaultStatusFollowsAny(t, caller, id, u, now);
  }
}
