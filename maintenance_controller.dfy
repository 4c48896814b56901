/** The maintenance workflow: opening a repair job on an asset, editing it,
    starting, completing and cancelling it, with the effect each step has on
    the asset. Each handler is a method on the store proved to leave the state
    its `...Outcome` function describes. */
module MaintenanceController {
  import opened Common
  import opened JsText
  import opened Store
  import opened MaintenanceModel
  import M = MaterielModel

  /** A document `save`: the validators run on the document as set, then the
      pre-save hook derives the total, and the result is what is stored. */
  function Saved(m: Maintenance): (r: Option<Maintenance>)
    ensures r.Some? <==> SchemaValid(m)
    ensures r.Some? ==> r.value.totalCost == r.value.cost + r.value.laborCost && r.value.(totalCost := m.totalCost) == m
  {
    if SchemaValid(m) then Some(PreSave(m)) else None
  }

  /** The job a create opens: a technician opening one is assigned to it and
      it starts in progress; anyone else opens it waiting, for the technician
      the body names. */
  function Opened(caller: Caller, materielId: Id, i: MaintenanceInput, now: int): (m: Maintenance)
    ensures caller.role == Technicien ==> m.technician == Some(caller.id) && m.status == EnCours
    ensures caller.role != Technicien ==> m.technician == i.technicianId && m.status == EnAttente
    ensures m.materiel == materielId && m.requestedBy == caller.id && IsOpen(m)
  {
    NewMaintenance(materielId, if caller.role == Technicien then Some(caller.id) else i.technicianId,
                   caller.id, if caller.role == Technicien then EnCours else EnAttente, i, now)
  }

  // ---------------------------------------------------------------- create

  function CreateOutcome(t: Tables, caller: Caller, materielId: Id, i: MaintenanceInput, now: int): (o: Outcome<Maintenance>)
    ensures o.result.Ok? <==>
      && materielId in t.materiels
      && OpenMaintenancesOf(t, materielId) == {}
      && SchemaValid(Opened(caller, materielId, i, now))
      && M.SchemaValid(t.materiels[materielId].(status := M.EnMaintenance))
    ensures o.result.Ok? ==>
      && o.result.value == Opened(caller, materielId, i, now)
      && o.tables == t.(maintenances := t.maintenances[t.nextId := o.result.value], nextId := t.nextId + 1,
                        materiels := t.materiels[materielId := t.materiels[materielId].(status := M.EnMaintenance)])
    ensures o.result.Err? && o.result.error != ValidationFailed ==> o.tables == t
    ensures o.result.Err? ==> o.tables.materiels == t.materiels
    ensures !SchemaValid(Opened(caller, materielId, i, now)) ==> o.tables == t
    ensures o.result.Err? && o.tables != t ==>
      o.tables == t.(maintenances := t.maintenances[t.nextId := Opened(caller, materielId, i, now)], nextId := t.nextId + 1)
  {
    if materielId !in t.materiels then Outcome(Err(NotFound), t)
    else if OpenMaintenancesOf(t, materielId) != {} then Outcome(Err(Conflict), t)
    else
      var m := Opened(caller, materielId, i, now);
      if !SchemaValid(m) then Outcome(Err(ValidationFailed), t)
      else
        var t1 := t.(maintenances := t.maintenances[t.nextId := m], nextId := t.nextId + 1);
        var a1 := t.materiels[materielId].(status := M.EnMaintenance);
        if !M.SchemaValid(a1) then Outcome(Err(ValidationFailed), t1)
        else Outcome(Ok(m), t1.(materiels := t1.materiels[materielId := a1]))
  }

  /** `createMaintenance`: refused while the asset has a waiting or running
      job; the job is stored first, then the asset is put in maintenance. */
  method CreateMaintenance(db: Db, caller: Caller, materielId: Id, i: MaintenanceInput, now: int)
    returns (r: Result<Maintenance>)
    modifies db
    ensures Outcome(r, db.Snapshot()) == CreateOutcome(old(db.Snapshot()), caller, materielId, i, now)
  {
    ghost var t0 := db.Snapshot();
    if materielId !in db.materiels {
      return Err(NotFound);
    }
    var materiel := db.materiels[materielId];
    var open := OpenMaintenancesOf(db.Snapshot(), materielId);
    if open != {} {
      return Err(Conflict);
    }
    var job := Opened(caller, materielId, i, now);
    if !SchemaValid(job) {
      return Err(ValidationFailed);
    }
    var id := db.FreshId();
    db.maintenances := db.maintenances[id := job];
    assert db.Snapshot() == t0.(maintenances := t0.maintenances[t0.nextId := job], nextId := t0.nextId + 1);
    materiel := materiel.(status := M.EnMaintenance);
    if !M.SchemaValid(materiel) {
      return Err(ValidationFailed);
    }
    db.materiels := db.materiels[materielId := materiel];
    r := Ok(job);
  }

  // ---------------------------------------------------------------- update

  /** Who may edit a job: administrators, technicians and the requester. */
  predicate MayEdit(caller: Caller, m: Maintenance) {
    IsStaff(caller.role) || m.requestedBy == caller.id
  }

  function UpdateOutcome(t: Tables, caller: Caller, id: Id, p: MaintenancePatch): (o: Outcome<Maintenance>)
    ensures o.result.Ok? <==>
      id in t.maintenances && MayEdit(caller, t.maintenances[id]) && t.maintenances[id].status != Terminee && PatchValid(p)
    ensures o.result.Ok? ==>
      && o.result.value == ApplyPatch(t.maintenances[id], p)
      && o.tables == t.(maintenances := t.maintenances[id := o.result.value])
    ensures o.result.Err? ==> o.tables == t
  {
    if id !in t.maintenances then Outcome(Err(NotFound), t)
    else
      var m := t.maintenances[id];
      if !MayEdit(caller, m) then Outcome(Err(Forbidden), t)
      else if m.status == Terminee then Outcome(Err(InvalidState), t)
      else if !PatchValid(p) then Outcome(Err(ValidationFailed), t)
      else
        var m1 := ApplyPatch(m, p);
        Outcome(Ok(m1), t.(maintenances := t.maintenances[id := m1]))
  }

  /** `updateMaintenance`: an update query, so only the edited paths are
      validated and the pre-save hook does not run. */
  method UpdateMaintenance(db: Db, caller: Caller, id: Id, p: MaintenancePatch) returns (r: Result<Maintenance>)
    modifies db
    ensures Outcome(r, db.Snapshot()) == UpdateOutcome(old(db.Snapshot()), caller, id, p)
  {
    if id !in db.maintenances {
      return Err(NotFound);
    }
    var job := db.maintenances[id];
    if !MayEdit(caller, job) {
      return Err(Forbidden);
    }
    if job.status == Terminee {
      return Err(InvalidState);
    }
    if !PatchValid(p) {
      return Err(ValidationFailed);
    }
    job := ApplyPatch(job, p);
    db.maintenances := db.maintenances[id := job];
    r := Ok(job);
  }

  /** The edit with the total derived again, as a document save would. */
  function UpdateRecomputingOutcome(t: Tables, caller: Caller, id: Id, p: MaintenancePatch): (o: Outcome<Maintenance>)
    ensures o.result.Ok? <==> UpdateOutcome(t, caller, id, p).result.Ok?
    ensures o.result.Ok? ==>
      && o.result.value == PreSave(ApplyPatch(t.maintenances[id], p))
      && o.tables == t.(maintenances := t.maintenances[id := o.result.value])
    ensures o.result.Err? ==> o == UpdateOutcome(t, caller, id, p)
  {
    var u := UpdateOutcome(t, caller, id, p);
    if u.result.Err? then u
    else
      var m1 := PreSave(u.result.value);
      Outcome(Ok(m1), t.(maintenances := t.maintenances[id := m1]))
  }

  /** The corrected `updateMaintenance`: the job is edited in place and saved
      through the hook. */
  method UpdateMaintenanceRecomputing(db: Db, caller: Caller, id: Id, p: MaintenancePatch) returns (r: Result<Maintenance>)
    modifies db
    ensures Outcome(r, db.Snapshot()) == UpdateRecomputingOutcome(old(db.Snapshot()), caller, id, p)
  {
    if id !in db.maintenances {
      return Err(NotFound);
    }
    var job := db.maintenances[id];
    if !MayEdit(caller, job) {
      return Err(Forbidden);
    }
    if job.status == Terminee {
      return Err(InvalidState);
    }
    if !PatchValid(p) {
      return Err(ValidationFailed);
    }
    job := ApplyPatch(job, p);
    job := job.(totalCost := job.cost + job.laborCost);
    db.maintenances := db.maintenances[id := job];
    r := Ok(job);
  }

  // ----------------------------------------------------------------- start

  /** The job a start saves: in progress, with the caller as its technician
      and its start date reset to now. */
  function Started(m: Maintenance, caller: Caller, now: int): (r: Maintenance)
    ensures r.status == EnCours && r.technician == Some(caller.id) && r.startDate == now
    ensures r.materiel == m.materiel && r.cost == m.cost && r.laborCost == m.laborCost
    ensures SchemaValid(r) <==> SchemaValid(m.(technician := Some(caller.id)))
    ensures m.estimatedDuration.Some? && m.estimatedDuration.value > 0 ==> !IsOverdue(r, now)
  {
    m.(status := EnCours, technician := Some(caller.id), startDate := now)
  }

  function StartOutcome(t: Tables, caller: Caller, id: Id, now: int): (o: Outcome<Maintenance>)
    ensures o.result.Ok? <==>
      id in t.maintenances && t.maintenances[id].status == EnAttente && SchemaValid(Started(t.maintenances[id], caller, now))
    ensures o.result.Ok? ==>
      && o.result.value == PreSave(Started(t.maintenances[id], caller, now))
      && o.result.value.status == EnCours && o.result.value.technician == Some(caller.id)
      && o.tables == t.(maintenances := t.maintenances[id := o.result.value])
    ensures o.result.Err? ==> o.tables == t
  {
    if id !in t.maintenances then Outcome(Err(NotFound), t)
    else
      var m := t.maintenances[id];
      if m.status != EnAttente then Outcome(Err(InvalidState), t)
      else
        var saved := Saved(Started(m, caller, now));
        if saved.None? then Outcome(Err(ServerError), t)
        else Outcome(Ok(saved.value), t.(maintenances := t.maintenances[id := saved.value]))
  }

  /** `startMaintenance`, open to administrators and technicians: a waiting
      job goes in progress with the caller as its technician. */
  method StartMaintenance(db: Db, caller: Caller, id: Id, now: int) returns (r: Result<Maintenance>)
    requires IsStaff(caller.role)
    modifies db
    ensures Outcome(r, db.Snapshot()) == StartOutcome(old(db.Snapshot()), caller, id, now)
  {
    if id !in db.maintenances {
      return Err(NotFound);
    }
    var job := db.maintenances[id];
    if job.status != EnAttente {
      return Err(InvalidState);
    }
    job := job.(status := EnCours);
    job := job.(technician := Some(caller.id));
    job := job.(startDate := now);
    var saved := Saved(job);
    if saved.None? {
      return Err(ServerError);
    }
    db.maintenances := db.maintenances[id := saved.value];
    r := Ok(saved.value);
  }

  // -------------------------------------------------------------- complete

  /** The body of a completion. */
  datatype Completion = Completion(
    solution: Option<string>,
    actualDuration: Option<int>,
    cost: Option<int>,
    partsUsed: Option<seq<Part>>,
    laborCost: Option<int>,
    qualityCheck: Option<QualityCheck>,
    qualityNotes: Option<string>,
    nextMaintenanceDate: Option<int>)

  /** The job with the completion's paths set, the solution trimmed by its
      setter. Both amounts must be given: without one of them the hook's sum
      is not a number and the save is rejected. */
  function Completed(m: Maintenance, c: Completion, now: int): (r: Maintenance)
    requires c.cost.Some? && c.laborCost.Some?
    ensures r.status == Terminee && r.endDate == Some(now) && r.cost == c.cost.value && r.laborCost == c.laborCost.value
    ensures r.materiel == m.materiel && r.requestedBy == m.requestedBy
    ensures c.solution.Some? ==> r.solution == Some(Trim(c.solution.value))
    ensures c.solution.None? ==> r.solution.None?
  {
    m.(status := Terminee, endDate := Some(now), solution := M.TrimmedText(c.solution), actualDuration := c.actualDuration,
       cost := c.cost.value, partsUsed := if c.partsUsed.Some? then c.partsUsed.value else [],
       laborCost := c.laborCost.value, qualityCheck := c.qualityCheck, qualityNotes := c.qualityNotes,
       nextMaintenanceDate := c.nextMaintenanceDate)
  }

  /** The asset once its job is complete: available, maintained now, and the
      next maintenance date replaced only when the body gives one. */
  function Serviced(a: M.Materiel, c: Completion, now: int): (r: M.Materiel)
    ensures r.status == M.Disponible && r.lastMaintenance == Some(now)
    ensures r.nextMaintenance == (if c.nextMaintenanceDate.Some? then c.nextMaintenanceDate else a.nextMaintenance)
    ensures r.assignedTo == a.assignedTo
  {
    a.(status := M.Disponible, lastMaintenance := Some(now),
       nextMaintenance := if c.nextMaintenanceDate.Some? then c.nextMaintenanceDate else a.nextMaintenance)
  }

  function CompleteOutcome(t: Tables, caller: Caller, id: Id, c: Completion, now: int): (o: Outcome<Maintenance>)
    ensures o.result.Ok? <==>
      && id in t.maintenances && t.maintenances[id].status == EnCours
      && c.cost.Some? && c.laborCost.Some?
      && SchemaValid(Completed(t.maintenances[id], c, now))
      && t.maintenances[id].materiel in t.materiels
      && M.SchemaValid(Serviced(t.materiels[t.maintenances[id].materiel], c, now))
    ensures o.result.Ok? ==>
      var mid := t.maintenances[id].materiel;
      && o.result.value == PreSave(Completed(t.maintenances[id], c, now))
      && o.result.value.totalCost == c.cost.value + c.laborCost.value
      && o.tables == t.(maintenances := t.maintenances[id := o.result.value],
                        materiels := t.materiels[mid := Serviced(t.materiels[mid], c, now)])
    ensures o.result.Err? && o.result.error != ServerError ==> o.tables == t
    ensures c.cost.None? || c.laborCost.None? ==> o.tables == t
  {
    if id !in t.maintenances then Outcome(Err(NotFound), t)
    else
      var m := t.maintenances[id];
      if m.status != EnCours then Outcome(Err(InvalidState), t)
      else if c.cost.None? || c.laborCost.None? then Outcome(Err(ServerError), t)
      else
        var saved := Saved(Completed(m, c, now));
        if saved.None? then Outcome(Err(ServerError), t)
        else
          var t1 := t.(maintenances := t.maintenances[id := saved.value]);
          if m.materiel !in t.materiels then Outcome(Err(ServerError), t1)
          else
            var a1 := Serviced(t.materiels[m.materiel], c, now);
            if !M.SchemaValid(a1) then Outcome(Err(ServerError), t1)
            else Outcome(Ok(saved.value), t1.(materiels := t1.materiels[m.materiel := a1]))
  }

  /** `completeMaintenance`, open to administrators and technicians: a job in
      progress is closed with the body's results and its asset made
      available again. The job is saved before the asset is loaded. */
  method CompleteMaintenance(db: Db, caller: Caller, id: Id, c: Completion, now: int) returns (r: Result<Maintenance>)
    requires IsStaff(caller.role)
    modifies db
    ensures Outcome(r, db.Snapshot()) == CompleteOutcome(old(db.Snapshot()), caller, id, c, now)
  {
    if id !in db.maintenances {
      return Err(NotFound);
    }
    var job := db.maintenances[id];
    if job.status != EnCours {
      return Err(InvalidState);
    }
    if c.cost.None? || c.laborCost.None? {
      return Err(ServerError);
    }
    job := job.(status := Terminee);
    job := job.(endDate := Some(now));
    job := job.(solution := M.TrimmedText(c.solution));
    job := job.(actualDuration := c.actualDuration);
    job := job.(cost := c.cost.value);
    job := job.(partsUsed := if c.partsUsed.Some? then c.partsUsed.value else []);
    job := job.(laborCost := c.laborCost.value);
    job := job.(qualityCheck := c.qualityCheck);
    job := job.(qualityNotes := c.qualityNotes);
    job := job.(nextMaintenanceDate := c.nextMaintenanceDate);
    var saved := Saved(job);
    if saved.None? {
      return Err(ServerError);
    }
    db.maintenances := db.maintenances[id := saved.value];
    if job.materiel !in db.materiels {
      return Err(ServerError);
    }
    var materiel := db.materiels[job.materiel];
    materiel := materiel.(status := M.Disponible);
    materiel := materiel.(lastMaintenance := Some(now));
    if c.nextMaintenanceDate.Some? {
      materiel := materiel.(nextMaintenance := c.nextMaintenanceDate);
    }
    if !M.SchemaValid(materiel) {
      return Err(ServerError);
    }
    db.materiels := db.materiels[job.materiel := materiel];
    r := Ok(saved.value);
  }

  // ---------------------------------------------------------------- cancel

  function CancelLine(caller: Caller, reason: Option<string>): string {
    "\nCancelled by: " + caller.name + ". Reason: " + Render(reason)
  }

  function CancelledBy(m: Maintenance, caller: Caller, reason: Option<string>): Maintenance {
    m.(status := Annulee, notes := Some(AppendNote(m.notes, CancelLine(caller, reason))))
  }

  function CancelOutcome(t: Tables, caller: Caller, id: Id, reason: Option<string>): (o: Outcome<Maintenance>)
    ensures o.result.Ok? <==>
      id in t.maintenances && t.maintenances[id].status != Terminee && SchemaValid(CancelledBy(t.maintenances[id], caller, reason))
    ensures o.result.Ok? ==>
      && o.result.value == PreSave(CancelledBy(t.maintenances[id], caller, reason))
      && o.result.value.status == Annulee
      && o.tables == t.(maintenances := t.maintenances[id := o.result.value])
    ensures o.result.Err? ==> o.tables == t
  {
    if id !in t.maintenances then Outcome(Err(NotFound), t)
    else
      var m := t.maintenances[id];
      if m.status == Terminee then Outcome(Err(InvalidState), t)
      else
        var saved := Saved(CancelledBy(m, caller, reason));
        if saved.None? then Outcome(Err(ServerError), t)
        else Outcome(Ok(saved.value), t.(maintenances := t.maintenances[id := saved.value]))
  }

  /** `cancelMaintenance` as written, open to administrators and technicians:
      the status is tested after it has been set to `annulee`, so the branch
      that would make the asset available never runs. */
  method CancelMaintenance(db: Db, caller: Caller, id: Id, reason: Option<string>) returns (r: Result<Maintenance>)
    requires IsStaff(caller.role)
    modifies db
    ensures Outcome(r, db.Snapshot()) == CancelOutcome(old(db.Snapshot()), caller, id, reason)
  {
    if id !in db.maintenances {
      return Err(NotFound);
    }
    var job := db.maintenances[id];
    if job.status == Terminee {
      return Err(InvalidState);
    }
    job := job.(status := Annulee);
    job := job.(notes := Some(AppendNote(job.notes, CancelLine(caller, reason))));
    var saved := Saved(job);
    if saved.None? {
      return Err(ServerError);
    }
    db.maintenances := db.maintenances[id := saved.value];
    r := Ok(saved.value);
  }

  /** The evidently intended cancel: a job that was in progress gives its
      asset back as available. */
  function CancelRestoringOutcome(t: Tables, caller: Caller, id: Id, reason: Option<string>): (o: Outcome<Maintenance>)
    ensures o.result.Ok? ==> o.result == CancelOutcome(t, caller, id, reason).result
    ensures o.result.Ok? && t.maintenances[id].status != EnCours ==> o == CancelOutcome(t, caller, id, reason)
    ensures o.result.Ok? && t.maintenances[id].status == EnCours ==>
      var mid := t.maintenances[id].materiel;
      && mid in t.materiels
      && o.tables == CancelOutcome(t, caller, id, reason).tables.(materiels := t.materiels[mid := t.materiels[mid].(status := M.Disponible)])
  {
    var c := CancelOutcome(t, caller, id, reason);
    if c.result.Err? || t.maintenances[id].status != EnCours then c
    else
      var mid := t.maintenances[id].materiel;
      if mid !in t.materiels then Outcome(Err(ServerError), c.tables)
      else
        var a1 := t.materiels[mid].(status := M.Disponible);
        if !M.SchemaValid(a1) then Outcome(Err(ServerError), c.tables)
        else Outcome(c.result, c.tables.(materiels := c.tables.materiels[mid := a1]))
  }

  /** The corrected handler: the status is remembered before it is
      overwritten. */
  method CancelMaintenanceRestoring(db: Db, caller: Caller, id: Id, reason: Option<string>) returns (r: Result<Maintenance>)
    requires IsStaff(caller.role)
    modifies db
    ensures Outcome(r, db.Snapshot()) == CancelRestoringOutcome(old(db.Snapshot()), caller, id, reason)
  {
    if id !in db.maintenances {
      return Err(NotFound);
    }
    var job := db.maintenances[id];
    var wasRunning := job.status == EnCours;
    if job.status == Terminee {
      return Err(InvalidState);
    }
    job := job.(status := Annulee);
    job := job.(notes := Some(AppendNote(job.notes, CancelLine(caller, reason))));
    var saved := Saved(job);
    if saved.None? {
      return Err(ServerError);
    }
    db.maintenances := db.maintenances[id := saved.value];
    if wasRunning {
      if job.materiel !in db.materiels {
        return Err(ServerError);
      }
      var materiel := db.materiels[job.materiel];
      materiel := materiel.(status := M.Disponible);
      if !M.SchemaValid(materiel) {
        return Err(ServerError);
      }
      db.materiels := db.materiels[job.materiel := materiel];
    }
    r := Ok(saved.value);
  }

  // ---------------------------------------------------------------- properties

  /** Opening, starting, completing and cancelling keep at most one waiting
      or running job per asset: a create is refused while one is open, start
      keeps an open job open, and complete and cancel close one. */
  lemma {:induction false} CreateKeepsOneOpen(t: Tables, caller: Caller, materielId: Id, i: MaintenanceInput, now: int)
    requires WellFormed(t) && OneOpenMaintenancePerAsset(t)
    ensures OneOpenMaintenancePerAsset(CreateOutcome(t, caller, materielId, i, now).tables)
  {
    var o := CreateOutcome(t, caller, materielId, i, now);
    if o.tables.maintenances != t.maintenances {
      var n := t.nextId;
      assert o.tables.maintenances == t.maintenances[n := Opened(caller, materielId, i, now)];
      assert OpenMaintenancesOf(t, materielId) == {};
      forall j | j in t.maintenances && IsOpen(t.maintenances[j])
        ensures t.maintenances[j].materiel != materielId
      {
        assert j !in OpenMaintenancesOf(t, materielId);
      }
    }
  }

  /** Opening a job puts the asset in maintenance and keeps its assignee, so
      the invariant "an asset has an assignee exactly when it is `affecté`"
      survives a create exactly when the asset had no assignee. */
  lemma {:induction false} CreateKeepsAssigneeInvariantIff(t: Tables, caller: Caller, materielId: Id, i: MaintenanceInput, now: int)
    requires AssigneeIffAllocated(t)
    ensures var o := CreateOutcome(t, caller, materielId, i, now);
      AssigneeIffAllocated(o.tables) <==> !(o.result.Ok? && t.materiels[materielId].assignedTo.Some?)
  {
    var o := CreateOutcome(t, caller, materielId, i, now);
    if o.result.Ok? {
      assert o.tables.materiels[materielId] == t.materiels[materielId].(status := M.EnMaintenance);
      forall j | j in o.tables.materiels && j != materielId
        ensures o.tables.materiels[j] == t.materiels[j]
      {
      }
    }
  }

  lemma StartKeepsOneOpen(t: Tables, caller: Caller, id: Id, now: int)
    requires OneOpenMaintenancePerAsset(t)
    ensures OneOpenMaintenancePerAsset(StartOutcome(t, caller, id, now).tables)
  {
  }

  lemma CompleteKeepsOneOpen(t: Tables, caller: Caller, id: Id, c: Completion, now: int)
    requires OneOpenMaintenancePerAsset(t)
    ensures OneOpenMaintenancePerAsset(CompleteOutcome(t, caller, id, c, now).tables)
  {
  }

  lemma CancelKeepsOneOpen(t: Tables, caller: Caller, id: Id, reason: Option<string>)
    requires OneOpenMaintenancePerAsset(t)
    ensures OneOpenMaintenancePerAsset(CancelOutcome(t, caller, id, reason).tables)
  {
  }

  /** An edit is not held to that rule: setting a cancelled job of an asset
      back to waiting, while another job of the asset is open, leaves two
      open jobs on one asset. */
  lemma UpdateCanReopen(t: Tables, caller: Caller, id: Id, other: Id, p: MaintenancePatch)
    requires id in t.maintenances && other in t.maintenances && id != other
    requires t.maintenances[id].status == Annulee && IsOpen(t.maintenances[other])
    requires t.maintenances[id].materiel == t.maintenances[other].materiel
    requires MayEdit(caller, t.maintenances[id]) && PatchValid(p) && p.status == Some(EnAttente) && p.materiel.None?
    ensures UpdateOutcome(t, caller, id, p).result.Ok?
    ensures !OneOpenMaintenancePerAsset(UpdateOutcome(t, caller, id, p).tables)
  {
    var t1 := UpdateOutcome(t, caller, id, p).tables;
    assert IsOpen(t1.maintenances[id]) && IsOpen(t1.maintenances[other]);
  }

  /** Every handler that saves a job through the hook keeps each stored total
      equal to its parts cost plus its labour cost. */
  lemma CreateKeepsTotals(t: Tables, caller: Caller, materielId: Id, i: MaintenanceInput, now: int)
    requires WellFormed(t) && TotalsConsistent(t)
    ensures TotalsConsistent(CreateOutcome(t, caller, materielId, i, now).tables)
  {
  }

  lemma StartKeepsTotals(t: Tables, caller: Caller, id: Id, now: int)
    requires TotalsConsistent(t)
    ensures TotalsConsistent(StartOutcome(t, caller, id, now).tables)
  {
  }

  lemma CompleteKeepsTotals(t: Tables, caller: Caller, id: Id, c: Completion, now: int)
    requires TotalsConsistent(t)
    ensures TotalsConsistent(CompleteOutcome(t, caller, id, c, now).tables)
  {
  }

  lemma CancelKeepsTotals(t: Tables, caller: Caller, id: Id, reason: Option<string>)
    requires TotalsConsistent(t)
    ensures TotalsConsistent(CancelOutcome(t, caller, id, reason).tables)
  {
  }

  /** As written, an edit that changes the parts cost leaves the stored total
      at its old value. */
  lemma UpdateLeavesStaleTotal(t: Tables, caller: Caller, id: Id, p: MaintenancePatch)
    requires TotalsConsistent(t)
    requires UpdateOutcome(t, caller, id, p).result.Ok?
    requires p.cost.Some? && p.cost.value != t.maintenances[id].cost && p.laborCost.None? && p.totalCost.None?
    ensures !TotalsConsistent(UpdateOutcome(t, caller, id, p).tables)
  {
    var m1 := UpdateOutcome(t, caller, id, p).tables.maintenances[id];
    assert m1.totalCost == t.maintenances[id].totalCost && m1.laborCost == t.maintenances[id].laborCost;
  }

  /** The corrected edit keeps every total consistent. */
  lemma UpdateRecomputingKeepsTotals(t: Tables, caller: Caller, id: Id, p: MaintenancePatch)
    requires TotalsConsistent(t)
    ensures TotalsConsistent(UpdateRecomputingOutcome(t, caller, id, p).tables)
  {
  }

  /** As written, a job a technician opens and then cancels leaves its asset
      in maintenance with no open job left to close it. */
  lemma {:induction false} CancelLeavesAssetInMaintenance(t: Tables, tech: Caller, materielId: Id, i: MaintenanceInput,
                                                          reason: Option<string>, now: int)
    requires WellFormed(t) && tech.role == Technicien
    requires CreateOutcome(t, tech, materielId, i, now).result.Ok?
    ensures var t1 := CreateOutcome(t, tech, materielId, i, now).tables;
            var c := CancelOutcome(t1, tech, t.nextId, reason);
            && c.result.Ok?
            && c.tables.materiels[materielId].status == M.EnMaintenance
            && OpenMaintenancesOf(c.tables, materielId) == {}
  {
    var t1 := CreateOutcome(t, tech, materielId, i, now).tables;
    var job := Opened(tech, materielId, i, now);
    assert t1.maintenances[t.nextId] == job;
    assert OpenMaintenancesOf(t, materielId) == {};
    var c := CancelOutcome(t1, tech, t.nextId, reason);
    assert SchemaValid(CancelledBy(job, tech, reason));
    assert c.result.Ok?;
    forall k | k in c.tables.maintenances && c.tables.maintenances[k].materiel == materielId
      ensures !IsOpen(c.tables.maintenances[k])
    {
      if k != t.nextId {
        assert k !in OpenMaintenancesOf(t, materielId);
      }
    }
  }

  /** The corrected cancel makes the asset of a running job available. */
  lemma {:induction false} CancelRestoringReleases(t: Tables, tech: Caller, materielId: Id, i: MaintenanceInput,
                                                   reason: Option<string>, now: int)
    requires WellFormed(t) && tech.role == Technicien
    requires CreateOutcome(t, tech, materielId, i, now).result.Ok?
    ensures var t1 := CreateOutcome(t, tech, materielId, i, now).tables;
            var c := CancelRestoringOutcome(t1, tech, t.nextId, reason);
            && c.result.Ok?
            && c.tables.materiels[materielId].status == M.Disponible
  {
    var t1 := CreateOutcome(t, tech, materielId, i, now).tables;
    var job := Opened(tech, materielId, i, now);
    assert t1.maintenances[t.nextId] == job;
    assert SchemaValid(CancelledBy(job, tech, reason));
    assert M.SchemaValid(t1.materiels[materielId]);
    assert t1.materiels[materielId].(status := M.Disponible) == t.materiels[materielId].(status := M.Disponible);
  }

  /** A job completed after it was started records both amounts and their
      sum, and leaves its asset available with the completion date as its
      last maintenance. */
  lemma {:induction false} StartThenComplete(t: Tables, tech: Caller, id: Id, c: Completion, now: int, later: int)
    requires StartOutcome(t, tech, id, now).result.Ok?
    requires CompleteOutcome(StartOutcome(t, tech, id, now).tables, tech, id, c, later).result.Ok?
    ensures var t2 := CompleteOutcome(StartOutcome(t, tech, id, now).tables, tech, id, c, later).tables;
            var mid := t.maintenances[id].materiel;
            && t2.maintenances[id].status == Terminee
            && t2.maintenances[id].technician == Some(tech.id)
            && t2.maintenances[id].startDate == now && t2.maintenances[id].endDate == Some(later)
            && t2.maintenances[id].totalCost == c.cost.value + c.laborCost.value
            && t2.materiels[mid].status == M.Disponible && t2.materiels[mid].lastMaintenance == Some(later)
  {
    var t1 := StartOutcome(t, tech, id, now).tables;
    assert t1.maintenances[id].materiel == t.maintenances[id].materiel;
    assert t1.maintenances[id].technician == Some(tech.id) && t1.maintenances[id].startDate == now;
  }
}
