/** The fault-report schema (`FaultReport`): a user's report of a problem with
    one asset, with its enumerations and defaults. */
module FaultReportModel {
  import opened Common
  import opened JsText
  import MaterielModel

  datatype FaultType = Hardware | Software | Network | Power | PhysicalDamage | OtherFault

  datatype Severity = Low | Medium | High | Critical

  datatype FaultStatus = Reported | Acknowledged | InProgress | Resolved | Closed

  datatype Impact = NoImpact | Minor | Moderate | Major | Severe   // none, minor, moderate, major, critical

  const DefaultSeverity: Severity := Medium
  const DefaultStatus: FaultStatus := Reported
  const DefaultImpact: Impact := Minor

  datatype FaultReport = FaultReport(
    reportedBy: Id,
    equipment: Option<Id>,
    faultType: Option<FaultType>,
    description: string,
    severity: Severity,
    status: Option<FaultStatus>,        // an update may unset it
    reportedDate: int,
    acknowledgedBy: Option<Id>,
    acknowledgedDate: Option<int>,
    assignedTechnician: Option<Id>,
    assignedDate: Option<int>,
    resolution: Option<string>,
    resolvedDate: Option<int>,
    resolvedBy: Option<Id>,
    notes: Option<string>,
    impact: Impact,
    workaround: Option<string>)

  /** `equipment`, `faultType` and `description` are required (the reporter
      is always the caller). */
  predicate SchemaValid(f: FaultReport) {
    f.equipment.Some? && f.faultType.Some? && MaterielModel.Required(f.description)
  }

  datatype FaultInput = FaultInput(
    equipment: Option<Id>,
    faultType: Option<FaultType>,
    description: Option<string>,
    severity: Option<Severity>,
    impact: Option<Impact>,
    workaround: Option<string>)

  /** The document `FaultReport.create` builds: reporter the caller, severity
      medium, status reported and impact minor unless given, reported now. */
  function NewFaultReport(reporter: Id, i: FaultInput, now: int): (f: FaultReport)
    ensures f.reportedBy == reporter && f.equipment == i.equipment && f.status == Some(Reported)
    ensures f.severity == (if i.severity.Some? then i.severity.value else Medium)
    ensures f.impact == (if i.impact.Some? then i.impact.value else Minor)
    ensures f.acknowledgedBy.None? && f.resolvedBy.None? && f.assignedTechnician.None?
  {
    FaultReport(reporter, i.equipment, i.faultType, MaterielModel.RequiredText(i.description),
      if i.severity.Some? then i.severity.value else DefaultSeverity, Some(DefaultStatus), now,
      None, None, None, None, None, None, None, None,
      if i.impact.Some? then i.impact.value else DefaultImpact, i.workaround)
  }

  /** A new report validates exactly when it names an asset and a fault type
      and its description is not blank. */
  lemma NewFaultReportValid(reporter: Id, i: FaultInput, now: int)
    ensures SchemaValid(NewFaultReport(reporter, i, now)) <==>
      i.equipment.Some? && i.faultType.Some? && i.description.Some? && Trim(i.description.value) != ""
  {
  }
}
