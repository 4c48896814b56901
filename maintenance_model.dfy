/** The maintenance schema (`Maintenance`): a repair job on one asset, its
    enumerations and defaults, the validators, the pre-save hook that derives
    `totalCost`, and the `duration` and `isOverdue` virtuals. Amounts and
    durations are integers here. */
module MaintenanceModel {
  import opened Common
  import opened JsText
  import MaterielModel

  datatype MaintenanceType = Preventive | Corrective | Urgente

  datatype Priority = Basse | Normale | Haute | Critique

  datatype MaintenanceStatus = EnAttente | EnCours | Terminee | Annulee

  datatype QualityCheck = QcPending | QcPassed | QcFailed

  const DefaultPriority: Priority := Normale
  const DefaultStatus: MaintenanceStatus := EnAttente
  const DefaultQualityCheck: QualityCheck := QcPending
  const DefaultMaintenanceCycle: int := 365

  /** One entry of `partsUsed`. */
  datatype Part = Part(name: Option<string>, quantity: Option<int>, cost: Option<int>)

  datatype Maintenance = Maintenance(
    materiel: Id,
    kind: Option<MaintenanceType>,      // the `type` path
    priority: Priority,
    status: MaintenanceStatus,
    description: string,
    cause: Option<string>,
    solution: Option<string>,
    technician: Option<Id>,
    requestedBy: Id,
    startDate: int,
    endDate: Option<int>,
    estimatedDuration: Option<int>,     // hours
    actualDuration: Option<int>,        // hours
    cost: int,
    partsUsed: seq<Part>,
    laborCost: int,
    totalCost: int,
    notes: Option<string>,
    nextMaintenanceDate: Option<int>,
    maintenanceCycle: int,
    qualityCheck: Option<QualityCheck>,
    qualityNotes: Option<string>)

  /** A maintenance record counts as open while waiting or in progress. */
  predicate IsOpen(m: Maintenance) {
    m.status == EnAttente || m.status == EnCours
  }

  /** A part needs a non-empty name and a quantity; its cost is not negative. */
  predicate PartValid(p: Part) {
    p.name.Some? && p.name.value != "" && p.quantity.Some? && (p.cost.Some? ==> p.cost.value >= 0)
  }

  predicate PartsValid(parts: seq<Part>) {
    forall i :: 0 <= i < |parts| ==> PartValid(parts[i])
  }

  /** Every validator of the schema. */
  predicate SchemaValid(m: Maintenance) {
    && m.kind.Some?
    && MaterielModel.Required(m.description)
    && m.technician.Some?
    && m.estimatedDuration.Some?
    && m.cost >= 0 && m.laborCost >= 0 && m.totalCost >= 0
    && PartsValid(m.partsUsed)
  }

  /** The pre-save hook: the total is the parts cost plus the labour cost. */
  function PreSave(m: Maintenance): (r: Maintenance)
    ensures r.totalCost == r.cost + r.laborCost
    ensures r.(totalCost := m.totalCost) == m
  {
    m.(totalCost := m.cost + m.laborCost)
  }

  /** The hook cannot be what makes a save fail: with non-negative parts and
      labour costs the derived total is non-negative too, so validation
      after the hook depends only on the other paths. */
  lemma PreSaveValid(m: Maintenance)
    ensures SchemaValid(PreSave(m)) <==>
      SchemaValid(m.(totalCost := 0))
  {
  }

  /** Running the hook twice is running it once. */
  lemma PreSaveIdempotent(m: Maintenance)
    ensures PreSave(PreSave(m)) == PreSave(m)
  {
  }

  /** `x || 0` on an optional number. */
  function OrZero(x: Option<int>): (r: int)
    ensures x.Some? ==> r == x.value
    ensures x.None? ==> r == 0
  {
    if x.Some? then x.value else 0
  }

  /** `maintenanceCycle || 365`: an absent or zero cycle becomes 365 days. */
  function CycleOrDefault(x: Option<int>): (r: int)
    ensures r != 0
    ensures x.Some? && x.value != 0 ==> r == x.value
  {
    if x.Some? && x.value != 0 then x.value else DefaultMaintenanceCycle
  }

  /** The body fields a create supplies. */
  datatype MaintenanceInput = MaintenanceInput(
    kind: Option<MaintenanceType>,
    priority: Option<Priority>,
    description: Option<string>,
    cause: Option<string>,
    estimatedDuration: Option<int>,
    notes: Option<string>,
    technicianId: Option<Id>,
    cost: Option<int>,
    laborCost: Option<int>,
    nextMaintenanceDate: Option<int>,
    maintenanceCycle: Option<int>,
    partsUsed: Option<seq<Part>>)

  /** The document `Maintenance.create` saves: the given fields, absent costs
      as 0, an absent or zero cycle as 365 days, absent parts as none, the
      priority `normale` by default, start date now, quality check pending,
      and the pre-save total. */
  function NewMaintenance(materiel: Id, technician: Option<Id>, requestedBy: Id, status: MaintenanceStatus,
                          i: MaintenanceInput, now: int): (m: Maintenance)
    ensures m.materiel == materiel && m.technician == technician && m.requestedBy == requestedBy
    ensures m.status == status && m.startDate == now
    ensures m.cost == OrZero(i.cost) && m.laborCost == OrZero(i.laborCost)
    ensures m.totalCost == m.cost + m.laborCost
    ensures i.priority.None? ==> m.priority == Normale
    ensures i.partsUsed.None? ==> m.partsUsed == []
    ensures m.maintenanceCycle == CycleOrDefault(i.maintenanceCycle)
    ensures m.qualityCheck == Some(QcPending)
  {
    PreSave(Maintenance(materiel, i.kind, if i.priority.Some? then i.priority.value else DefaultPriority,
      status, MaterielModel.RequiredText(i.description), TrimmedCause(i.cause), None, technician, requestedBy,
      now, None, i.estimatedDuration, None, OrZero(i.cost), if i.partsUsed.Some? then i.partsUsed.value else [],
      OrZero(i.laborCost), 0, i.notes, i.nextMaintenanceDate, CycleOrDefault(i.maintenanceCycle),
      Some(DefaultQualityCheck), None))
  }

  function TrimmedCause(c: Option<string>): Option<string> {
    MaterielModel.TrimmedText(c)
  }

  /** The `isOverdue` virtual: in progress with a non-zero estimate, and the
      estimated end (start plus the estimate in hours) is past. */
  predicate IsOverdue(m: Maintenance, now: int) {
    && m.status == EnCours
    && m.estimatedDuration.Some? && m.estimatedDuration.value != 0
    && now > m.startDate + m.estimatedDuration.value * HourMs
  }

  /** A job that is not in progress is never overdue, whatever the clock. */
  lemma OnlyInProgressOverdue(m: Maintenance, now: int)
    requires m.status != EnCours
    ensures !IsOverdue(m, now)
  {
  }

  /** Once overdue, a job in progress stays overdue as time passes, and it
      is overdue at some time exactly when it has a non-zero estimate. */
  lemma OverdueStaysOverdue(m: Maintenance, now: int, later: int)
    requires IsOverdue(m, now) && now <= later
    ensures m.estimatedDuration.Some? && m.estimatedDuration.value != 0
    ensures IsOverdue(m, later)
  {
  }

  /** The `duration` virtual: whole days, rounded up, from the start date to
      the end date, or to now while not ended. */
  function Duration(m: Maintenance, now: int): (days: int)
    ensures var end := if m.endDate.Some? then m.endDate.value else now;
            (days - 1) * DayMs < end - m.startDate <= days * DayMs
  {
    var end := if m.endDate.Some? then m.endDate.value else now;
    CeilDiv(end - m.startDate, DayMs)
  }

  /** The body of an edit: one entry per modelled path of the schema,
      absent when the body does not name it. */
  datatype MaintenancePatch = MaintenancePatch(
    materiel: Option<Id>,
    kind: Option<MaintenanceType>,
    priority: Option<Priority>,
    status: Option<MaintenanceStatus>,
    description: Option<string>,
    cause: Option<string>,
    solution: Option<string>,
    technician: Option<Id>,
    requestedBy: Option<Id>,
    startDate: Option<int>,
    endDate: Option<int>,
    estimatedDuration: Option<int>,
    actualDuration: Option<int>,
    cost: Option<int>,
    partsUsed: Option<seq<Part>>,
    laborCost: Option<int>,
    totalCost: Option<int>,
    notes: Option<string>,
    nextMaintenanceDate: Option<int>,
    maintenanceCycle: Option<int>,
    qualityCheck: Option<QualityCheck>,
    qualityNotes: Option<string>)

  /** The edit that names no path. */
  const NoEdit: MaintenancePatch :=
    MaintenancePatch(None, None, None, None, None, None, None, None, None, None, None,
                     None, None, None, None, None, None, None, None, None, None, None)

  /** Update validators on the paths the edit names. */
  predicate PatchValid(p: MaintenancePatch) {
    && (p.description.Some? ==> MaterielModel.Required(Trim(p.description.value)))
    && (p.cost.Some? ==> p.cost.value >= 0)
    && (p.laborCost.Some? ==> p.laborCost.value >= 0)
    && (p.totalCost.Some? ==> p.totalCost.value >= 0)
    && (p.partsUsed.Some? ==> PartsValid(p.partsUsed.value))
  }

  /** The document after a `findByIdAndUpdate` with this edit: every named
      path takes the edit's value (trimmed where the schema trims), every
      other path keeps its own, and nothing is derived: the stored total
      changes only when the edit names it. */
  function ApplyPatch(m: Maintenance, p: MaintenancePatch): (r: Maintenance)
    ensures p.totalCost.None? ==> r.totalCost == m.totalCost
    ensures p.totalCost.Some? ==> r.totalCost == p.totalCost.value
    ensures p.materiel.None? ==> r.materiel == m.materiel
    ensures p.materiel.Some? ==> r.materiel == p.materiel.value
    ensures p.requestedBy.None? ==> r.requestedBy == m.requestedBy
    ensures p.cost.Some? ==> r.cost == p.cost.value
    ensures p.cost.None? ==> r.cost == m.cost
    ensures p.laborCost.None? ==> r.laborCost == m.laborCost
    ensures p.laborCost.Some? ==> r.laborCost == p.laborCost.value
    ensures p.status.Some? ==> r.status == p.status.value
    ensures p.status.None? ==> r.status == m.status
    ensures p.solution.Some? ==> r.solution == Some(Trim(p.solution.value))
    ensures p == NoEdit ==> r == m
  {
    Maintenance(
      MaterielModel.OrDefault(p.materiel, m.materiel), Keep(p.kind, m.kind),
      MaterielModel.OrDefault(p.priority, m.priority), MaterielModel.OrDefault(p.status, m.status),
      MaterielModel.TrimmedOr(p.description, m.description), Keep(MaterielModel.TrimmedText(p.cause), m.cause),
      Keep(MaterielModel.TrimmedText(p.solution), m.solution), Keep(p.technician, m.technician),
      MaterielModel.OrDefault(p.requestedBy, m.requestedBy), MaterielModel.OrDefault(p.startDate, m.startDate),
      Keep(p.endDate, m.endDate), Keep(p.estimatedDuration, m.estimatedDuration),
      Keep(p.actualDuration, m.actualDuration), MaterielModel.OrDefault(p.cost, m.cost),
      MaterielModel.OrDefault(p.partsUsed, m.partsUsed), MaterielModel.OrDefault(p.laborCost, m.laborCost),
      MaterielModel.OrDefault(p.totalCost, m.totalCost), Keep(p.notes, m.notes),
      Keep(p.nextMaintenanceDate, m.nextMaintenanceDate), MaterielModel.OrDefault(p.maintenanceCycle, m.maintenanceCycle),
      Keep(p.qualityCheck, m.qualityCheck), Keep(p.qualityNotes, m.qualityNotes))
  }

  /** An edit that passes the update validators keeps a valid record valid. */
  lemma PatchKeepsValid(m: Maintenance, p: MaintenancePatch)
    requires SchemaValid(m) && PatchValid(p)
    ensures SchemaValid(ApplyPatch(m, p))
  {
  }
}
