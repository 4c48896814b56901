/** The document store the handlers read and write: one collection per
    record kind, each a map from identifier to document, held in one object
    whose handlers replace documents in place. */
module Store {
  import opened Common
  import MaterielModel
  import AllocationModel
  import MaintenanceModel
  import FaultReportModel
  import EquipmentRequestModel
  import ChatbotModel

  /** A user account. The user schema itself is not part of this model; only
      the paths the handlers read or write are kept. `password` stands for the
      stored credential, which the handlers only ever compare. */
  datatype User = User(name: Option<string>, email: Option<string>, role: Role, password: Option<string>)

  /** The whole store as a value; `nextId` is the next identifier to hand out. */
  datatype Tables = Tables(
    materiels: map<Id, MaterielModel.Materiel>,
    allocations: map<Id, AllocationModel.Allocation>,
    maintenances: map<Id, MaintenanceModel.Maintenance>,
    faultReports: map<Id, FaultReportModel.FaultReport>,
    requests: map<Id, EquipmentRequestModel.EquipmentRequest>,
    users: map<Id, User>,
    sessions: map<Id, ChatbotModel.Session>,
    nextId: Id)

  /** What a handler answers and the store it leaves behind. */
  datatype Outcome<T> = Outcome(result: Result<T>, tables: Tables)

  /** Every key of `m` is below `n`. */
  predicate KeysBelow<V>(m: map<Id, V>, n: Id) {
    forall id :: id in m ==> id < n
  }

  /** Identifiers are never reused: every stored key is below `nextId`. */
  predicate WellFormed(t: Tables) {
    && KeysBelow(t.materiels, t.nextId)
    && KeysBelow(t.allocations, t.nextId)
    && KeysBelow(t.maintenances, t.nextId)
    && KeysBelow(t.faultReports, t.nextId)
    && KeysBelow(t.requests, t.nextId)
    && KeysBelow(t.users, t.nextId)
    && KeysBelow(t.sessions, t.nextId)
  }

  const EmptyTables: Tables := Tables(map[], map[], map[], map[], map[], map[], map[], 0)

  /** The allocations of an asset whose status is `active`. */
  function ActiveAllocationsOf(t: Tables, materiel: Id): (s: set<Id>)
    ensures forall id :: id in s <==>
      id in t.allocations && t.allocations[id].materiel == materiel && t.allocations[id].status == AllocationModel.Active
  {
    set id | id in t.allocations && t.allocations[id].materiel == materiel && t.allocations[id].status == AllocationModel.Active
  }

  /** The maintenance records of an asset that are `en_attente` or `en_cours`. */
  function OpenMaintenancesOf(t: Tables, materiel: Id): (s: set<Id>)
    ensures forall id :: id in s <==>
      id in t.maintenances && t.maintenances[id].materiel == materiel && MaintenanceModel.IsOpen(t.maintenances[id])
  {
    set id | id in t.maintenances && t.maintenances[id].materiel == materiel && MaintenanceModel.IsOpen(t.maintenances[id])
  }

  /** The assets carrying a given serial number. */
  function SerialHolders(t: Tables, serial: string): (s: set<Id>)
    ensures forall id :: id in s <==> id in t.materiels && t.materiels[id].serialNumber == Some(serial)
  {
    set id | id in t.materiels && t.materiels[id].serialNumber == Some(serial)
  }

  /** The sparse unique index on `serialNumber`: a serial that is present is
      carried by one asset only; assets without a serial are not indexed. */
  predicate SerialsUnique(t: Tables) {
    forall i, j ::
      (i in t.materiels && j in t.materiels && t.materiels[i].serialNumber.Some?
       && t.materiels[i].serialNumber == t.materiels[j].serialNumber) ==> i == j
  }

  /** Storing an asset whose serial, if present, no other asset carries
      keeps serials unique. */
  lemma SerialsUniqueAfterPut(t: Tables, id: Id, m: MaterielModel.Materiel)
    requires SerialsUnique(t)
    requires m.serialNumber.Some? ==> forall j :: j in t.materiels && j != id ==> t.materiels[j].serialNumber != m.serialNumber
    ensures SerialsUnique(t.(materiels := t.materiels[id := m]))
  {
  }

  /** An asset names an assignee exactly when its status is `affecté`. */
  predicate AssigneeIffAllocated(t: Tables) {
    forall id :: id in t.materiels ==>
      (t.materiels[id].assignedTo.Some? <==> t.materiels[id].status == MaterielModel.Affecte)
  }

  /** At most one open maintenance record per asset. */
  predicate OneOpenMaintenancePerAsset(t: Tables) {
    forall i, j ::
      (i in t.maintenances && j in t.maintenances
       && MaintenanceModel.IsOpen(t.maintenances[i]) && MaintenanceModel.IsOpen(t.maintenances[j])
       && t.maintenances[i].materiel == t.maintenances[j].materiel) ==> i == j
  }

  /** Every stored maintenance record carries the total its hook derives. */
  predicate TotalsConsistent(t: Tables) {
    forall id :: id in t.maintenances ==>
      t.maintenances[id].totalCost == t.maintenances[id].cost + t.maintenances[id].laborCost
  }

  /** Adding a document under the next identifier keeps identifiers unique. */
  lemma FreshKeyNotUsed(t: Tables)
    requires WellFormed(t)
    ensures t.nextId !in t.materiels && t.nextId !in t.allocations && t.nextId !in t.maintenances
    ensures t.nextId !in t.faultReports && t.nextId !in t.requests && t.nextId !in t.users && t.nextId !in t.sessions
  {
  }

  class Db {
    var materiels: map<Id, MaterielModel.Materiel>
    var allocations: map<Id, AllocationModel.Allocation>
    var maintenances: map<Id, MaintenanceModel.Maintenance>
    var faultReports: map<Id, FaultReportModel.FaultReport>
    var requests: map<Id, EquipmentRequestModel.EquipmentRequest>
    var users: map<Id, User>
    var sessions: map<Id, ChatbotModel.Session>
    var nextId: Id

    function Snapshot(): Tables
      reads this
    {
      Tables(materiels, allocations, maintenances, faultReports, requests, users, sessions, nextId)
    }

    constructor ()
      ensures Snapshot() == EmptyTables
    {
      materiels, allocations, maintenances := map[], map[], map[];
      faultReports, requests, users, sessions := map[], map[], map[], map[];
      nextId := 0;
    }

    /** `save()` of an asset document: the schema validators run and the
        document is written only when they pass. */
    method SaveMateriel(id: Id, m: MaterielModel.Materiel) returns (saved: bool)
      modifies this
      ensures saved == MaterielModel.SchemaValid(m)
      ensures Snapshot() == if saved then old(Snapshot()).(materiels := old(materiels)[id := m]) else old(Snapshot())
    {
      saved := MaterielModel.SchemaValid(m);
      if saved {
        materiels := materiels[id := m];
      }
    }

    /** `Allocation.create(...)`: the schema validators run and the
        allocation is stored under the next identifier only when they pass. */
    method AddAllocation(a: AllocationModel.Allocation) returns (saved: bool)
      modifies this
      ensures saved == AllocationModel.SchemaValid(a)
      ensures Snapshot() == if saved then old(Snapshot()).(allocations := old(allocations)[old(nextId) := a], nextId := old(nextId) + 1)
                            else old(Snapshot())
    {
      saved := AllocationModel.SchemaValid(a);
      if saved {
        var id := FreshId();
        allocations := allocations[id := a];
      }
    }

    /** Hands out the next identifier. */
    method FreshId() returns (id: Id)
      modifies this
      ensures id == old(nextId) && Snapshot() == old(Snapshot()).(nextId := id + 1)
    {
      id := nextId;
      nextId := nextId + 1;
    }
  }
}
