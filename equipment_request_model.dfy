/** The equipment-request schema (`EquipmentRequest`): a user's request for a
    kind of asset, with its enumerations and defaults. */
module EquipmentRequestModel {
  import opened Common
  import MaterielModel

  /** The eight kinds a request may ask for: the asset types without
      Téléphone and Tablette. */
  const RequestTypeLabels: set<string> :=
    {"Ordinateur", "Caméra", "Microphone", "Écran", "Clavier", "Souris", "Câble", "Autre"}

  datatype RequestPriority = Basse | Normale | Haute | Urgente

  datatype RequestStatus = Pending | Approved | Rejected | Fulfilled | Cancelled

  const DefaultPriority: RequestPriority := Normale
  const DefaultStatus: RequestStatus := Pending

  datatype EquipmentRequest = EquipmentRequest(
    requestedBy: Id,
    equipmentType: Option<string>,
    description: string,
    purpose: string,
    priority: RequestPriority,
    status: Option<RequestStatus>,      // an update may unset it
    requestedDate: int,
    neededBy: Option<int>,
    approvedBy: Option<Id>,
    approvedDate: Option<int>,
    assignedEquipment: Option<Id>,
    assignedDate: Option<int>,
    notes: Option<string>,
    rejectionReason: Option<string>)

  /** `equipmentType` (one of the eight kinds), `description`, `purpose` and
      `neededBy` are required. */
  predicate SchemaValid(r: EquipmentRequest) {
    && r.equipmentType.Some? && r.equipmentType.value in RequestTypeLabels
    && MaterielModel.Required(r.description)
    && MaterielModel.Required(r.purpose)
    && r.neededBy.Some?
  }

  /** Every kind a request can name is also an asset type. */
  lemma RequestTypesAreAssetTypes()
    ensures RequestTypeLabels <= MaterielModel.TypeLabels
    ensures "Téléphone" in MaterielModel.TypeLabels - RequestTypeLabels
    ensures "Tablette" in MaterielModel.TypeLabels - RequestTypeLabels
  {
  }

  datatype RequestInput = RequestInput(
    equipmentType: Option<string>,
    description: Option<string>,
    purpose: Option<string>,
    priority: Option<RequestPriority>,
    neededBy: Option<int>)

  /** The document `EquipmentRequest.create` builds: requester the caller,
      priority normale unless given, status pending, requested now. An absent
      `neededBy` makes `new Date(undefined)`, an invalid date, so the path
      stays empty and the required check fails. */
  function NewRequest(requester: Id, i: RequestInput, now: int): (r: EquipmentRequest)
    ensures r.requestedBy == requester && r.status == Some(Pending) && r.requestedDate == now
    ensures r.priority == (if i.priority.Some? then i.priority.value else Normale)
    ensures r.approvedBy.None? && r.assignedEquipment.None?
  {
    EquipmentRequest(requester, i.equipmentType, MaterielModel.RequiredText(i.description),
      MaterielModel.RequiredText(i.purpose), if i.priority.Some? then i.priority.value else DefaultPriority,
      Some(DefaultStatus), now, i.neededBy, None, None, None, None, None, None)
  }
}
