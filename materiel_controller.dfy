/** The asset registry: the lenient normalisers for the enumerated paths of a
    new asset, creation and editing under the serial-number rule, deletion
    guards, direct hand-over and return, and marking an asset irreparable. */
module MaterielController {
  import opened Common
  import opened JsText
  import opened Store
  import opened MaterielModel
  import A = AllocationModel
  import Mt = MaintenanceModel
  import MaintenanceController

  // ----------------------------------------------------------- normalisers

  /** The spellings the type normaliser recognises, lower-cased. */
  const TypeAliases: map<string, string> := map[
    "ordinateur" := "Ordinateur", "ordinateur(s)" := "Ordinateur",
    "camera" := "Caméra", "caméra" := "Caméra",
    "microphone" := "Microphone", "micro" := "Microphone",
    "ecran" := "Écran", "écran" := "Écran",
    "clavier" := "Clavier", "souris" := "Souris",
    "cable" := "Câble", "câble" := "Câble",
    "telephone" := "Téléphone", "téléphone" := "Téléphone",
    "tablette" := "Tablette", "autre" := "Autre"]

  const ConditionAliases: map<string, string> := map[
    "excellent" := "Excellent", "bon" := "Bon", "moyen" := "Moyen", "mauvais" := "Mauvais"]

  const CategoryAliases: map<string, string> := map[
    "electronique" := "Électronique", "électronique" := "Électronique",
    "informatique" := "Informatique",
    "audio/video" := "Audio/Video", "audio-video" := "Audio/Video",
    "mobilier" := "Mobilier", "autre" := "Autre"]

  /** One normaliser: an absent or empty value is returned as it is;
      otherwise the trimmed, lower-cased value is looked up, and the original
      value (untrimmed) is kept when it is not listed. */
  function Normalize(v: Option<string>, aliases: map<string, string>): (r: Option<string>)
    ensures !Truthy(v) ==> r == v
    ensures Truthy(v) && ToLower(Trim(v.value)) in aliases ==> r == Some(aliases[ToLower(Trim(v.value))])
    ensures Truthy(v) && ToLower(Trim(v.value)) !in aliases ==> r == v
  {
    if !Truthy(v) then v
    else
      var key := ToLower(Trim(v.value));
      if key in aliases then Some(aliases[key]) else v
  }

  function NormalizeType(v: Option<string>): Option<string> { Normalize(v, TypeAliases) }
  function NormalizeCondition(v: Option<string>): Option<string> { Normalize(v, ConditionAliases) }
  function NormalizeCategory(v: Option<string>): Option<string> { Normalize(v, CategoryAliases) }

  /** A normaliser's output is a listed label or its input, untouched. */
  lemma NormalizeLabelOrUnchanged(v: Option<string>, aliases: map<string, string>, labels: set<string>)
    requires forall k :: k in aliases ==> aliases[k] in labels
    ensures Normalize(v, aliases) == v || Normalize(v, aliases).value in labels
  {
  }

  /** With every label spelled as one of its own aliases, normalising twice
      is normalising once. */
  lemma {:induction false} NormalizeIdempotent(v: Option<string>, aliases: map<string, string>, labels: set<string>)
    requires forall k :: k in aliases ==> aliases[k] in labels
    requires forall l :: l in labels ==> Normalize(Some(l), aliases) == Some(l)
    ensures Normalize(Normalize(v, aliases), aliases) == Normalize(v, aliases)
  {
    NormalizeLabelOrUnchanged(v, aliases, labels);
    var r := Normalize(v, aliases);
    if r != v {
      assert Normalize(Some(r.value), aliases) == Some(r.value);
    }
  }

  /** Each table maps only to labels of its enumeration. */
  lemma AliasesAreLabels()
    ensures forall k :: k in TypeAliases ==> TypeAliases[k] in TypeLabels
    ensures forall k :: k in ConditionAliases ==> ConditionAliases[k] in ConditionLabels
    ensures forall k :: k in CategoryAliases ==> CategoryAliases[k] in CategoryLabels
  {
  }

  /** A label spelled with no surrounding blanks normalises to itself when its
      lower-cased spelling `key` maps back to it. */
  lemma LabelFixed(l: string, key: string, aliases: map<string, string>)
    requires l != "" && !IsSpace(l[0]) && !IsSpace(l[|l| - 1])
    requires |key| == |l| && forall i :: 0 <= i < |l| ==> key[i] == LowerChar(l[i])
    requires key in aliases && aliases[key] == l
    ensures Normalize(Some(l), aliases) == Some(l)
  {
    TrimNoSpaces(l);
    assert ToLower(l) == key;
  }

  /** Every type label is a fixed point of the type normaliser. */
  lemma TypeLabelsFixed()
    ensures forall l :: l in TypeLabels ==> NormalizeType(Some(l)) == Some(l)
  {
    forall l | l in TypeLabels
      ensures NormalizeType(Some(l)) == Some(l)
    {
      if l == "Ordinateur" { LabelFixed(l, "ordinateur", TypeAliases); }
      else if l == "Microphone" { LabelFixed(l, "microphone", TypeAliases); }
      else if l == "Clavier" { LabelFixed(l, "clavier", TypeAliases); }
      else if l == "Souris" { LabelFixed(l, "souris", TypeAliases); }
      else if l == "Tablette" { LabelFixed(l, "tablette", TypeAliases); }
      else if l == "Autre" { LabelFixed(l, "autre", TypeAliases); }
      else { AccentedTypeLabelFixed(l); }
    }
  }

  /** The type labels with accented letters, whose lower-casing goes
      through the Latin-1 range. */
  lemma AccentedTypeLabelFixed(l: string)
    requires l in {"Caméra", "Écran", "Câble", "Téléphone"}
    ensures NormalizeType(Some(l)) == Some(l)
  {
    if l == "Caméra" { LabelFixed(l, "caméra", TypeAliases); }
    else if l == "Écran" { LabelFixed(l, "écran", TypeAliases); }
    else if l == "Câble" { LabelFixed(l, "câble", TypeAliases); }
    else { LabelFixed(l, "téléphone", TypeAliases); }
  }

  /** Every condition label is a fixed point of the condition normaliser. */
  lemma ConditionLabelsFixed()
    ensures forall l :: l in ConditionLabels ==> NormalizeCondition(Some(l)) == Some(l)
  {
    forall l | l in ConditionLabels
      ensures NormalizeCondition(Some(l)) == Some(l)
    {
      if l == "Excellent" { LabelFixed(l, "excellent", ConditionAliases); }
      else if l == "Bon" { LabelFixed(l, "bon", ConditionAliases); }
      else if l == "Moyen" { LabelFixed(l, "moyen", ConditionAliases); }
      else { LabelFixed(l, "mauvais", ConditionAliases); }
    }
  }

  /** Every category label is a fixed point of the category normaliser. */
  lemma CategoryLabelsFixed()
    ensures forall l :: l in CategoryLabels ==> NormalizeCategory(Some(l)) == Some(l)
  {
    forall l | l in CategoryLabels
      ensures NormalizeCategory(Some(l)) == Some(l)
    {
      if l == "Électronique" { LabelFixed(l, "électronique", CategoryAliases); }
      else if l == "Informatique" { LabelFixed(l, "informatique", CategoryAliases); }
      else if l == "Audio/Video" { LabelFixed(l, "audio/video", CategoryAliases); }
      else if l == "Mobilier" { LabelFixed(l, "mobilier", CategoryAliases); }
      else { LabelFixed(l, "autre", CategoryAliases); }
    }
  }

  /** The three normalisers: each output is a label of its enumeration or the
      input unchanged, and each is idempotent. */
  lemma NormalizersSound(v: Option<string>)
    ensures NormalizeType(v) == v || NormalizeType(v).value in TypeLabels
    ensures NormalizeCondition(v) == v || NormalizeCondition(v).value in ConditionLabels
    ensures NormalizeCategory(v) == v || NormalizeCategory(v).value in CategoryLabels
    ensures NormalizeType(NormalizeType(v)) == NormalizeType(v)
    ensures NormalizeCondition(NormalizeCondition(v)) == NormalizeCondition(v)
    ensures NormalizeCategory(NormalizeCategory(v)) == NormalizeCategory(v)
  {
    AliasesAreLabels();
    TypeLabelsFixed();
    ConditionLabelsFixed();
    CategoryLabelsFixed();
    NormalizeLabelOrUnchanged(v, TypeAliases, TypeLabels);
    NormalizeLabelOrUnchanged(v, ConditionAliases, ConditionLabels);
    NormalizeLabelOrUnchanged(v, CategoryAliases, CategoryLabels);
    NormalizeIdempotent(v, TypeAliases, TypeLabels);
    NormalizeIdempotent(v, ConditionAliases, ConditionLabels);
    NormalizeIdempotent(v, CategoryAliases, CategoryLabels);
  }

  /** The create body with its three enumerated paths normalised. */
  function Normalized(i: MaterielInput): (n: MaterielInput)
    ensures n.(kind := i.kind, category := i.category, condition := i.condition) == i
  {
    i.(kind := NormalizeType(i.kind), category := NormalizeCategory(i.category), condition := NormalizeCondition(i.condition))
  }

  // ---------------------------------------------------------------- create

  /** The serial-number check the handlers make before writing: a non-empty
      serial already carried by an asset other than `self`. */
  predicate SerialTaken(t: Tables, serial: Option<string>, self: Option<Id>) {
    Truthy(serial) && exists j :: j in SerialHolders(t, serial.value) && Some(j) != self
  }

  /** The unique index: any serial present, the empty one included, already
      carried by another asset. */
  predicate IndexClash(t: Tables, serial: Option<string>, self: Option<Id>) {
    serial.Some? && exists j :: j in SerialHolders(t, serial.value) && Some(j) != self
  }

  /** The create path once the document is built: `valid` says whether it
      passed the schema validators. */
  function InsertOutcome(t: Tables, serial: Option<string>, m: Materiel, valid: bool): (o: Outcome<Materiel>)
    ensures SerialTaken(t, serial, None) ==> o == Outcome(Err(Conflict), t)
    ensures o.result.Ok? <==> !IndexClash(t, serial, None) && valid
    ensures o.result.Ok? ==>
      && o.result.value == m
      && o.tables == t.(materiels := t.materiels[t.nextId := m], nextId := t.nextId + 1)
    ensures o.result.Err? ==> o.tables == t
  {
    if SerialTaken(t, serial, None) then Outcome(Err(Conflict), t)
    else if !valid then Outcome(Err(ValidationFailed), t)
    else if IndexClash(t, serial, None) then Outcome(Err(ServerError), t)
    else Outcome(Ok(m), t.(materiels := t.materiels[t.nextId := m], nextId := t.nextId + 1))
  }

  function CreateOutcome(t: Tables, i: MaterielInput, now: int): (o: Outcome<Materiel>)
    ensures SerialTaken(t, i.serialNumber, None) ==> o == Outcome(Err(Conflict), t)
    ensures o.result.Ok? <==>
      !IndexClash(t, i.serialNumber, None) && SchemaValid(NewMateriel(Normalized(i), now))
    ensures o.result.Ok? ==>
      && o.result.value == NewMateriel(Normalized(i), now)
      && o.tables == t.(materiels := t.materiels[t.nextId := o.result.value], nextId := t.nextId + 1)
    ensures o.result.Err? ==> o.tables == t
  {
    var m := NewMateriel(Normalized(i), now);
    InsertOutcome(t, i.serialNumber, m, SchemaValid(m))
  }

  /** `createMateriel`, open to every signed-in user: a non-empty serial
      already in use is refused before anything is built; an empty serial
      skips that check but still meets the unique index. */
  method CreateMateriel(db: Db, i: MaterielInput, now: int) returns (r: Result<Materiel>)
    modifies db
    ensures Outcome(r, db.Snapshot()) == CreateOutcome(old(db.Snapshot()), i, now)
  {
    var materiel := NewMateriel(Normalized(i), now);
    r := Insert(db, i.serialNumber, materiel, SchemaValid(materiel));
  }

  /** The checks and the write of `createMateriel` once the document is built. */
  method Insert(db: Db, serial: Option<string>, materiel: Materiel, valid: bool) returns (r: Result<Materiel>)
    modifies db
    ensures Outcome(r, db.Snapshot()) == InsertOutcome(old(db.Snapshot()), serial, materiel, valid)
  {
    ghost var t0 := db.Snapshot();
    if Truthy(serial) {
      var holders := SerialHolders(db.Snapshot(), serial.value);
      if holders != {} {
        var j :| j in holders;
        assert SerialTaken(t0, serial, None);
        return Err(Conflict);
      }
    }
    assert !SerialTaken(t0, serial, None);
    if !valid {
      return Err(ValidationFailed);
    }
    if serial.Some? {
      var holders := SerialHolders(db.Snapshot(), serial.value);
      if holders != {} {
        var j :| j in holders;
        assert IndexClash(t0, serial, None);
        return Err(ServerError);
      }
    }
    assert !IndexClash(t0, serial, None);
    db.materiels, db.nextId := db.materiels[db.nextId := materiel], db.nextId + 1;
    r := Ok(materiel);
  }

  // ---------------------------------------------------------------- update

  function UpdateOutcome(t: Tables, id: Id, p: MaterielPatch): (o: Outcome<Materiel>)
    ensures o.result.Ok? <==>
      && id in t.materiels
      && !(p.serialNumber != t.materiels[id].serialNumber && SerialTaken(t, p.serialNumber, None))
      && PatchValid(p)
      && !IndexClash(t, p.serialNumber, Some(id))
    ensures o.result.Ok? ==>
      && o.result.value == ApplyPatch(t.materiels[id], p)
      && o.tables == t.(materiels := t.materiels[id := o.result.value])
    ensures o.result.Err? ==> o.tables == t
  {
    if id !in t.materiels then Outcome(Err(NotFound), t)
    else
      var m := t.materiels[id];
      if p.serialNumber != m.serialNumber && SerialTaken(t, p.serialNumber, None) then Outcome(Err(Conflict), t)
      else if !PatchValid(p) then Outcome(Err(ValidationFailed), t)
      else if IndexClash(t, p.serialNumber, Some(id)) then Outcome(Err(ServerError), t)
      else
        var m1 := ApplyPatch(m, p);
        Outcome(Ok(m1), t.(materiels := t.materiels[id := m1]))
  }

  /** `updateMateriel`, open to administrators and technicians: the serial is
      checked again only when the edit gives a non-empty serial different
      from the current one; the edit is an update query, so only its own
      paths are validated. */
  method UpdateMateriel(db: Db, caller: Caller, id: Id, p: MaterielPatch) returns (r: Result<Materiel>)
    requires IsStaff(caller.role)
    modifies db
    ensures Outcome(r, db.Snapshot()) == UpdateOutcome(old(db.Snapshot()), id, p)
  {
    if id !in db.materiels {
      return Err(NotFound);
    }
    ghost var t0 := db.Snapshot();
    var materiel := db.materiels[id];
    if Truthy(p.serialNumber) && p.serialNumber != materiel.serialNumber {
      var holders := SerialHolders(db.Snapshot(), p.serialNumber.value);
      if holders != {} {
        var j :| j in holders;
        assert SerialTaken(t0, p.serialNumber, None);
        return Err(Conflict);
      }
      assert forall j :: j !in SerialHolders(t0, p.serialNumber.value);
    }
    assert !(p.serialNumber != materiel.serialNumber && SerialTaken(t0, p.serialNumber, None));
    if !PatchValid(p) {
      return Err(ValidationFailed);
    }
    if p.serialNumber.Some? {
      var others := SerialHolders(db.Snapshot(), p.serialNumber.value) - {id};
      if others != {} {
        var j :| j in others;
        assert IndexClash(t0, p.serialNumber, Some(id));
        return Err(ServerError);
      }
      forall j | j in SerialHolders(t0, p.serialNumber.value)
        ensures j == id
      {
        assert j !in others;
      }
    }
    assert !IndexClash(t0, p.serialNumber, Some(id));
    materiel := ApplyPatch(materiel, p);
    db.materiels := db.materiels[id := materiel];
    r := Ok(materiel);
  }

  /** Creating and editing keep each present serial on one asset only. */
  lemma CreateKeepsSerialsUnique(t: Tables, i: MaterielInput, now: int)
    requires WellFormed(t) && SerialsUnique(t)
    ensures SerialsUnique(CreateOutcome(t, i, now).tables)
  {
    var o := CreateOutcome(t, i, now);
    if o.result.Ok? {
      var m := o.result.value;
      forall j | j in t.materiels && j != t.nextId && m.serialNumber.Some?
        ensures t.materiels[j].serialNumber != m.serialNumber
      {
        assert j !in SerialHolders(t, i.serialNumber.value);
      }
      SerialsUniqueAfterPut(t, t.nextId, m);
    }
  }

  lemma UpdateKeepsSerialsUnique(t: Tables, id: Id, p: MaterielPatch)
    requires SerialsUnique(t)
    ensures SerialsUnique(UpdateOutcome(t, id, p).tables)
  {
    var o := UpdateOutcome(t, id, p);
    if o.result.Ok? {
      var m := o.result.value;
      forall j | j in t.materiels && j != id && m.serialNumber.Some?
        ensures t.materiels[j].serialNumber != m.serialNumber
      {
        if p.serialNumber.Some? {
          assert j !in SerialHolders(t, p.serialNumber.value);
        }
      }
      SerialsUniqueAfterPut(t, id, m);
    }
  }

  // ---------------------------------------------------------------- delete

  function DeleteOutcome(t: Tables, id: Id): (o: Outcome<Id>)
    ensures o.result.Ok? <==>
      id in t.materiels && ActiveAllocationsOf(t, id) == {} && OpenMaintenancesOf(t, id) == {}
    ensures o.result.Ok? ==> o.tables == t.(materiels := t.materiels - {id})
    ensures o.result.Err? ==> o.tables == t
  {
    if id !in t.materiels then Outcome(Err(NotFound), t)
    else if ActiveAllocationsOf(t, id) != {} then Outcome(Err(InUse), t)
    else if OpenMaintenancesOf(t, id) != {} then Outcome(Err(InUse), t)
    else Outcome(Ok(id), t.(materiels := t.materiels - {id}))
  }

  /** `deleteMateriel`, administrators only. */
  method DeleteMateriel(db: Db, caller: Caller, id: Id) returns (r: Result<Id>)
    requires caller.role == Admin
    modifies db
    ensures Outcome(r, db.Snapshot()) == DeleteOutcome(old(db.Snapshot()), id)
  {
    if id !in db.materiels {
      return Err(NotFound);
    }
    var loaned := ActiveAllocationsOf(db.Snapshot(), id);
    if loaned != {} {
      return Err(InUse);
    }
    var serviced := OpenMaintenancesOf(db.Snapshot(), id);
    if serviced != {} {
      return Err(InUse);
    }
    db.materiels := db.materiels - {id};
    r := Ok(id);
  }

  /** After a deletion no active allocation and no open job refers to a
      missing asset that had been there. */
  lemma DeleteLeavesNoLiveReference(t: Tables, id: Id)
    requires DeleteOutcome(t, id).result.Ok?
    ensures var t1 := DeleteOutcome(t, id).tables;
            && id !in t1.materiels
            && (forall k :: k in t1.allocations && t1.allocations[k].materiel == id ==> t1.allocations[k].status != A.Active)
            && (forall k :: k in t1.maintenances && t1.maintenances[k].materiel == id ==> !Mt.IsOpen(t1.maintenances[k]))
  {
    forall k | k in t.allocations && t.allocations[k].materiel == id
      ensures t.allocations[k].status != A.Active
    {
      assert k !in ActiveAllocationsOf(t, id);
    }
    forall k | k in t.maintenances && t.maintenances[k].materiel == id
      ensures !Mt.IsOpen(t.maintenances[k])
    {
      assert k !in OpenMaintenancesOf(t, id);
    }
  }

  // ---------------------------------------------------- assign and return

  /** What assign and return answer: the asset and the allocation touched. */
  datatype Handover = Handover(materiel: Materiel, allocation: Option<A.Allocation>)

  /** The body of an assignment. */
  datatype AssignInput = AssignInput(userId: Option<Id>, purpose: Option<string>, location: Option<string>,
                                     expectedReturnDate: Option<int>, notes: Option<string>)

  /** The allocation an assignment records, with the schema's defaults:
      status active, approval pending. */
  function AssignedAllocation(id: Id, caller: Caller, b: AssignInput, now: int): (a: A.Allocation)
    ensures a.status == A.Active && a.approvalStatus == A.Pending && a.materiel == id && a.user == b.userId
  {
    A.NewAllocation(id, b.userId, caller.id, A.AllocationInput(b.purpose, b.location, b.expectedReturnDate, b.notes),
                    A.DefaultApproval, now)
  }

  function AssignOutcome(t: Tables, caller: Caller, id: Id, b: AssignInput, now: int): (o: Outcome<Handover>)
    ensures o.result.Ok? <==>
      && id in t.materiels && t.materiels[id].status == Disponible
      && SchemaValid(HandedOver(t.materiels[id], b.userId, now))
      && A.SchemaValid(AssignedAllocation(id, caller, b, now))
    ensures o.result.Ok? ==>
      && o.result.value == Handover(HandedOver(t.materiels[id], b.userId, now), Some(AssignedAllocation(id, caller, b, now)))
      && o.tables == t.(materiels := t.materiels[id := HandedOver(t.materiels[id], b.userId, now)],
                        allocations := t.allocations[t.nextId := AssignedAllocation(id, caller, b, now)],
                        nextId := t.nextId + 1)
    ensures o.result.Err? && o.result.error != ServerError ==> o.tables == t
    ensures id in t.materiels && !SchemaValid(HandedOver(t.materiels[id], b.userId, now)) ==> o.tables == t
    ensures o.result.Err? && o.tables != t ==>
      id in t.materiels && o.tables == t.(materiels := t.materiels[id := HandedOver(t.materiels[id], b.userId, now)])
  {
    if id !in t.materiels then Outcome(Err(NotFound), t)
    else
      var m := t.materiels[id];
      if m.status != Disponible then Outcome(Err(InvalidState), t)
      else
        var m1 := HandedOver(m, b.userId, now);
        if !SchemaValid(m1) then Outcome(Err(ServerError), t)
        else
          var t1 := t.(materiels := t.materiels[id := m1]);
          var a := AssignedAllocation(id, caller, b, now);
          if !A.SchemaValid(a) then Outcome(Err(ServerError), t1)
          else Outcome(Ok(Handover(m1, Some(a))), t1.(allocations := t1.allocations[t.nextId := a], nextId := t.nextId + 1))
  }

  /** `assignMateriel`, open to administrators and technicians: the asset is
      saved as handed over first, then the allocation is created; an
      allocation the schema refuses leaves the asset handed over. */
  method AssignMateriel(db: Db, caller: Caller, id: Id, b: AssignInput, now: int) returns (r: Result<Handover>)
    requires IsStaff(caller.role)
    modifies db
    ensures Outcome(r, db.Snapshot()) == AssignOutcome(old(db.Snapshot()), caller, id, b, now)
  {
    ghost var t0 := db.Snapshot();
    if id !in db.materiels {
      return Err(NotFound);
    }
    var materiel := db.materiels[id];
    if materiel.status != Disponible {
      return Err(InvalidState);
    }
    materiel := materiel.(status := Affecte);
    materiel := materiel.(assignedTo := b.userId);
    materiel := materiel.(assignedDate := Some(now));
    var saved := db.SaveMateriel(id, materiel);
    if !saved {
      return Err(ServerError);
    }
    var allocation := AssignedAllocation(id, caller, b, now);
    saved := db.AddAllocation(allocation);
    if !saved {
      return Err(ServerError);
    }
    r := Ok(Handover(materiel, Some(allocation)));
  }

  /** The body of a return. */
  datatype ReturnInput = ReturnInput(returnCondition: Option<string>, damageReport: Option<string>, returnNotes: Option<string>)

  /** The allocation a direct return closes, through an update query with no
      validators. */
  function ClosedByReturn(a: A.Allocation, caller: Caller, b: ReturnInput, now: int): (r: A.Allocation)
    ensures r.status == A.Returned && r.returnDate == Some(now) && r.returnedBy == Some(caller.id)
    ensures r.materiel == a.materiel && r.user == a.user
  {
    a.(status := A.Returned, returnDate := Some(now),
       returnCondition := Keep(b.returnCondition, a.returnCondition),
       damageReport := Keep(b.damageReport, a.damageReport),
       returnNotes := Keep(b.returnNotes, a.returnNotes),
       returnedBy := Some(caller.id))
  }

  function ReturnOutcome(t: Tables, caller: Caller, id: Id, b: ReturnInput, now: int): (o: Outcome<Handover>)
    ensures o.result.Ok? <==>
      id in t.materiels && t.materiels[id].status == Affecte && SchemaValid(Released(t.materiels[id]))
    ensures o.result.Ok? && ActiveAllocationsOf(t, id) == {} ==>
      && o.result.value == Handover(Released(t.materiels[id]), None)
      && o.tables == t.(materiels := t.materiels[id := Released(t.materiels[id])])
    ensures o.result.Ok? && ActiveAllocationsOf(t, id) != {} ==>
      var k := MinId(ActiveAllocationsOf(t, id));
      && o.result.value == Handover(Released(t.materiels[id]), Some(ClosedByReturn(t.allocations[k], caller, b, now)))
      && o.tables == t.(materiels := t.materiels[id := Released(t.materiels[id])],
                        allocations := t.allocations[k := ClosedByReturn(t.allocations[k], caller, b, now)])
    ensures o.result.Err? ==> o.tables == t
  {
    if id !in t.materiels then Outcome(Err(NotFound), t)
    else
      var m := t.materiels[id];
      if m.status != Affecte then Outcome(Err(InvalidState), t)
      else
        var m1 := Released(m);
        if !SchemaValid(m1) then Outcome(Err(ServerError), t)
        else
          var t1 := t.(materiels := t.materiels[id := m1]);
          var active := ActiveAllocationsOf(t, id);
          if active == {} then Outcome(Ok(Handover(m1, None)), t1)
          else
            var k := MinId(active);
            var a1 := ClosedByReturn(t.allocations[k], caller, b, now);
            Outcome(Ok(Handover(m1, Some(a1))), t1.(allocations := t1.allocations[k := a1]))
  }

  /** `returnMateriel`, open to administrators and technicians: the asset is
      released, then the first active allocation of it, if any, is closed. */
  method ReturnMateriel(db: Db, caller: Caller, id: Id, b: ReturnInput, now: int) returns (r: Result<Handover>)
    requires IsStaff(caller.role)
    modifies db
    ensures Outcome(r, db.Snapshot()) == ReturnOutcome(old(db.Snapshot()), caller, id, b, now)
  {
    if id !in db.materiels {
      return Err(NotFound);
    }
    var materiel := db.materiels[id];
    if materiel.status != Affecte {
      return Err(InvalidState);
    }
    materiel := materiel.(status := Disponible);
    materiel := materiel.(assignedTo := None);
    materiel := materiel.(assignedDate := None);
    if !SchemaValid(materiel) {
      return Err(ServerError);
    }
    var active := ActiveAllocationsOf(db.Snapshot(), id);
    db.materiels := db.materiels[id := materiel];
    if active == {} {
      return Ok(Handover(materiel, None));
    }
    var k := MinId(active);
    var allocation := db.allocations[k];
    allocation := ClosedByReturn(allocation, caller, b, now);
    db.allocations := db.allocations[k := allocation];
    r := Ok(Handover(materiel, Some(allocation)));
  }

  /** Assign with a user named, and return, keep "an asset names an assignee
      exactly when it is affecté". */
  lemma AssignKeepsAssigneeInvariant(t: Tables, caller: Caller, id: Id, b: AssignInput, now: int)
    requires AssigneeIffAllocated(t) && b.userId.Some?
    ensures AssigneeIffAllocated(AssignOutcome(t, caller, id, b, now).tables)
  {
  }

  lemma ReturnKeepsAssigneeInvariant(t: Tables, caller: Caller, id: Id, b: ReturnInput, now: int)
    requires AssigneeIffAllocated(t)
    ensures AssigneeIffAllocated(ReturnOutcome(t, caller, id, b, now).tables)
  {
  }

  /** An edit may name the status alone: an asset without an assignee can
      be made `affecté` with no allocation and nobody to hold it. */
  lemma EditCanAffectWithoutAssignee(t: Tables, id: Id)
    requires id in t.materiels && t.materiels[id].assignedTo.None?
    ensures var o := UpdateOutcome(t, id, NoEdit.(status := Some(Affecte)));
            && o.result.Ok? && o.tables.allocations == t.allocations
            && o.tables.materiels[id].status == Affecte && o.tables.materiels[id].assignedTo.None?
            && !AssigneeIffAllocated(o.tables)
  {
    var o := UpdateOutcome(t, id, NoEdit.(status := Some(Affecte)));
    assert o.tables.materiels[id].status == Affecte;
  }

  /** Without a user the allocation is refused after the asset has been
      saved, leaving an asset affecté to nobody. */
  lemma AssignWithoutUserLeavesOrphan(t: Tables, caller: Caller, id: Id, b: AssignInput, now: int)
    requires b.userId.None?
    requires id in t.materiels && t.materiels[id].status == Disponible
    requires SchemaValid(HandedOver(t.materiels[id], None, now))
    ensures var o := AssignOutcome(t, caller, id, b, now);
            && o.result == Err(ServerError)
            && o.tables.materiels[id].status == Affecte && o.tables.materiels[id].assignedTo.None?
            && !AssigneeIffAllocated(o.tables)
  {
    assert !A.SchemaValid(AssignedAllocation(id, caller, b, now));
  }

  /** Assigning an available asset to a user and returning it closes the
      allocation the assignment opened and releases the asset. */
  lemma {:induction false} AssignThenReturn(t: Tables, caller: Caller, id: Id, b: AssignInput, ri: ReturnInput,
                                            now: int, later: int)
    requires WellFormed(t)
    requires AssignOutcome(t, caller, id, b, now).result.Ok?
    requires ActiveAllocationsOf(t, id) == {}
    ensures var t1 := AssignOutcome(t, caller, id, b, now).tables;
            var o := ReturnOutcome(t1, caller, id, ri, later);
            && o.result.Ok?
            && o.tables.materiels[id] == Released(t.materiels[id])
            && o.tables.allocations[t.nextId].status == A.Returned
            && o.tables.allocations[t.nextId].user == b.userId
  {
    var t1 := AssignOutcome(t, caller, id, b, now).tables;
    var a := AssignedAllocation(id, caller, b, now);
    assert t1.allocations[t.nextId] == a;
    forall k | k in t1.allocations && k != t.nextId
      ensures k !in ActiveAllocationsOf(t1, id)
    {
      assert k !in ActiveAllocationsOf(t, id);
    }
    assert ActiveAllocationsOf(t1, id) == {t.nextId};
    assert Released(HandedOver(t.materiels[id], b.userId, now)) == Released(t.materiels[id]);
  }

  // ------------------------------------------------------ mark irreparable

  /** The asset as the handler sets it before saving. */
  function MarkedIrreparable(m: Materiel, caller: Caller, reason: Option<string>, disposalMethod: Option<string>,
                             now: int): (r: Materiel)
    ensures r.status == Irreparable && r.assignedTo == m.assignedTo
    ensures r.irreparable.Some? && r.irreparable.value.reportedBy == caller.id && r.irreparable.value.date == now
  {
    var kept := if m.irreparable.Some? then m.irreparable.value.disposalMethod else None;
    m.(status := Irreparable,
       irreparable := Some(IrreparableInfo(now, reason, caller.id, if Truthy(disposalMethod) then disposalMethod else kept)))
  }

  function MarkIrreparableOutcome(t: Tables, caller: Caller, id: Id, reason: Option<string>,
                                  disposalMethod: Option<string>, now: int): (o: Outcome<Materiel>)
    ensures o.result.Err? && o.tables == t
    ensures id !in t.materiels ==> o.result == Err(NotFound)
    ensures id in t.materiels && t.materiels[id].status != Irreparable ==> o.result == Err(ServerError)
  {
    if id !in t.materiels then Outcome(Err(NotFound), t)
    else
      var m := t.materiels[id];
      if m.status == Irreparable then Outcome(Err(InvalidState), t)
      else
        var m1 := MarkedIrreparable(m, caller, reason, disposalMethod, now);
        if !SchemaValid(m1) then Outcome(Err(ServerError), t)
        else Outcome(Ok(m1), t.(materiels := t.materiels[id := m1]))
  }

  /** `markIrreparable` as written: the status it sets is not in the schema's
      enumeration, so the first save is refused and nothing changes. */
  method MarkIrreparable(db: Db, caller: Caller, id: Id, reason: Option<string>, disposalMethod: Option<string>, now: int)
    returns (r: Result<Materiel>)
    modifies db
    ensures Outcome(r, db.Snapshot()) == MarkIrreparableOutcome(old(db.Snapshot()), caller, id, reason, disposalMethod, now)
  {
    if id !in db.materiels {
      return Err(NotFound);
    }
    var materiel := db.materiels[id];
    if materiel.status == Irreparable {
      return Err(InvalidState);
    }
    materiel := MarkedIrreparable(materiel, caller, reason, disposalMethod, now);
    // The save checks `status` against the enumeration, which lacks `irreparable`.
    assert !SchemaValid(materiel);
    return Err(ServerError);
  }

  /** The note both cascades record. */
  function IrreparableNote(reason: Option<string>): string {
    "Equipment marked as irreparable: " + Render(reason)
  }

  /** The allocation of an asset marked irreparable, closed by an update query
      with no validators (its return condition is outside the enumeration). */
  function ClosedAsIrreparable(a: A.Allocation, caller: Caller, reason: Option<string>, now: int): (r: A.Allocation)
    ensures r.status == A.Returned && r.returnCondition == Some("irreparable") && r.returnedBy == Some(caller.id)
  {
    a.(status := A.Returned, returnDate := Some(now), returnCondition := Some("irreparable"),
       returnNotes := Some(IrreparableNote(reason)), returnedBy := Some(caller.id))
  }

  /** The open job of an asset marked irreparable, as set before its save;
      the schema's setter trims the solution. */
  function EndedAsIrreparable(m: Mt.Maintenance, reason: Option<string>, now: int): (r: Mt.Maintenance)
    ensures r.status == Mt.Terminee && r.endDate == Some(now) && r.actualDuration == Some(0)
    ensures r.solution == Some(Trim(IrreparableNote(reason)))
    ensures r.materiel == m.materiel && r.cost == m.cost && r.laborCost == m.laborCost
  {
    m.(status := Mt.Terminee, endDate := Some(now), solution := TrimmedText(Some(IrreparableNote(reason))),
       actualDuration := Some(0))
  }

  /** The tables after the allocation step of the cascade. */
  function AfterAllocationStep(t: Tables, caller: Caller, id: Id, handedOver: bool, reason: Option<string>, now: int): (t1: Tables)
    ensures t1.materiels == t.materiels && t1.maintenances == t.maintenances && t1.nextId == t.nextId
    ensures !handedOver || ActiveAllocationsOf(t, id) == {} ==> t1 == t
    ensures handedOver && ActiveAllocationsOf(t, id) != {} ==>
      var k := MinId(ActiveAllocationsOf(t, id));
      t1 == t.(allocations := t.allocations[k := ClosedAsIrreparable(t.allocations[k], caller, reason, now)])
  {
    if !handedOver || ActiveAllocationsOf(t, id) == {} then t
    else
      var k := MinId(ActiveAllocationsOf(t, id));
      t.(allocations := t.allocations[k := ClosedAsIrreparable(t.allocations[k], caller, reason, now)])
  }

  /** The tables after the job step of the cascade: the first open job of
      the asset ended and saved through its hook, or `None` when that save is
      refused. */
  function AfterMaintenanceStep(t: Tables, id: Id, reason: Option<string>, now: int): (r: Option<Tables>)
    ensures OpenMaintenancesOf(t, id) == {} ==> r == Some(t)
    ensures r.Some? ==> r.value == t.(maintenances := r.value.maintenances)
    ensures r.Some? ==> r.value.maintenances.Keys == t.maintenances.Keys
  {
    var open := OpenMaintenancesOf(t, id);
    if open == {} then Some(t)
    else
      var k := MinId(open);
      var saved := MaintenanceController.Saved(EndedAsIrreparable(t.maintenances[k], reason, now));
      if saved.None? then None else Some(t.(maintenances := t.maintenances[k := saved.value]))
  }

  function MarkIrreparableWidenedOutcome(t: Tables, caller: Caller, id: Id, reason: Option<string>,
                                         disposalMethod: Option<string>, now: int): (o: Outcome<Materiel>)
    ensures o.result.Ok? ==>
      && id in t.materiels && t.materiels[id].status != Irreparable
      && o.result.value == MarkedIrreparable(t.materiels[id], caller, reason, disposalMethod, now)
      && o.tables.materiels == t.materiels[id := o.result.value]
    ensures o.result.Err? && o.result.error != ServerError ==> o.tables == t
  {
    if id !in t.materiels then Outcome(Err(NotFound), t)
    else
      var m := t.materiels[id];
      if m.status == Irreparable then Outcome(Err(InvalidState), t)
      else
        var m1 := MarkedIrreparable(m, caller, reason, disposalMethod, now);
        if !WidenedSchemaValid(m1) then Outcome(Err(ServerError), t)
        else
          var t2 := AfterAllocationStep(t.(materiels := t.materiels[id := m1]), caller, id, m1.assignedTo.Some?, reason, now);
          var t3 := AfterMaintenanceStep(t2, id, reason, now);
          if t3.None? then Outcome(Err(ServerError), t2) else Outcome(Ok(m1), t3.value)
  }

  /** The evidently intended `markIrreparable`: with `irreparable` admitted
      by the schema, the asset is saved as irreparable, the first active
      allocation of an assigned asset is closed, and the first open job of
      the asset is ended. */
  method MarkIrreparableWidened(db: Db, caller: Caller, id: Id, reason: Option<string>, disposalMethod: Option<string>,
                                now: int) returns (r: Result<Materiel>)
    modifies db
    ensures Outcome(r, db.Snapshot()) == MarkIrreparableWidenedOutcome(old(db.Snapshot()), caller, id, reason, disposalMethod, now)
  {
    if id !in db.materiels {
      return Err(NotFound);
    }
    var materiel := db.materiels[id];
    if materiel.status == Irreparable {
      return Err(InvalidState);
    }
    materiel := MarkedIrreparable(materiel, caller, reason, disposalMethod, now);
    if !WidenedSchemaValid(materiel) {
      return Err(ServerError);
    }
    ghost var t0 := db.Snapshot();
    db.materiels := db.materiels[id := materiel];
    assert db.Snapshot() == t0.(materiels := t0.materiels[id := materiel]);
    CloseAllocationOfIrreparable(db, caller, id, materiel.assignedTo.Some?, reason, now);
    var ended := EndJobOfIrreparable(db, id, reason, now);
    if !ended {
      return Err(ServerError);
    }
    r := Ok(materiel);
  }

  /** The allocation step: an assigned asset's first active allocation is
      closed by an update query. */
  method CloseAllocationOfIrreparable(db: Db, caller: Caller, id: Id, handedOver: bool, reason: Option<string>, now: int)
    modifies db
    ensures db.Snapshot() == AfterAllocationStep(old(db.Snapshot()), caller, id, handedOver, reason, now)
  {
    if handedOver {
      var active := ActiveAllocationsOf(db.Snapshot(), id);
      if active != {} {
        var k := MinId(active);
        var allocation := ClosedAsIrreparable(db.allocations[k], caller, reason, now);
        db.allocations := db.allocations[k := allocation];
      }
    }
  }

  /** The job step: the asset's first open job is ended field by field and
      saved, which runs its validators and hook. */
  method EndJobOfIrreparable(db: Db, id: Id, reason: Option<string>, now: int) returns (ended: bool)
    modifies db
    ensures ended <==> AfterMaintenanceStep(old(db.Snapshot()), id, reason, now).Some?
    ensures ended ==> db.Snapshot() == AfterMaintenanceStep(old(db.Snapshot()), id, reason, now).value
    ensures !ended ==> db.Snapshot() == old(db.Snapshot())
  {
    var open := OpenMaintenancesOf(db.Snapshot(), id);
    if open == {} {
      return true;
    }
    var k := MinId(open);
    var job := db.maintenances[k];
    job := job.(status := Mt.Terminee);
    job := job.(endDate := Some(now));
    job := job.(solution := TrimmedText(Some(IrreparableNote(reason))));
    job := job.(actualDuration := Some(0));
    assert job == EndedAsIrreparable(db.maintenances[k], reason, now);
    var saved := MaintenanceController.Saved(job);
    if saved.None? {
      return false;
    }
    db.maintenances := db.maintenances[k := saved.value];
    ended := true;
  }

  /** The widened handler ends the open job of the asset: with at most one
      open job per asset, none is left open once it succeeds. */
  lemma {:induction false} MarkIrreparableEndsMaintenance(t: Tables, caller: Caller, id: Id, reason: Option<string>,
                                                          disposalMethod: Option<string>, now: int)
    requires OneOpenMaintenancePerAsset(t)
    requires MarkIrreparableWidenedOutcome(t, caller, id, reason, disposalMethod, now).result.Ok?
    ensures OpenMaintenancesOf(MarkIrreparableWidenedOutcome(t, caller, id, reason, disposalMethod, now).tables, id) == {}
  {
    var o := MarkIrreparableWidenedOutcome(t, caller, id, reason, disposalMethod, now);
    var m1 := MarkedIrreparable(t.materiels[id], caller, reason, disposalMethod, now);
    var t1 := t.(materiels := t.materiels[id := m1]);
    var t2 := AfterAllocationStep(t1, caller, id, m1.assignedTo.Some?, reason, now);
    assert t2.maintenances == t.maintenances;
    var open := OpenMaintenancesOf(t2, id);
    if open != {} {
      var k := MinId(open);
      assert k in t.maintenances && Mt.IsOpen(t.maintenances[k]) && t.maintenances[k].materiel == id;
      forall j | j in o.tables.maintenances && o.tables.maintenances[j].materiel == id
        ensures !Mt.IsOpen(o.tables.maintenances[j])
      {
        if j != k {
          assert o.tables.maintenances[j] == t.maintenances[j];
        }
      }
    }
  }

  /** The widened handler closes the allocation of an assigned asset: with
      at most one active allocation of the asset, none is left active. */
  lemma {:induction false} MarkIrreparableClosesAllocation(t: Tables, caller: Caller, id: Id, reason: Option<string>,
                                                           disposalMethod: Option<string>, now: int)
    requires |ActiveAllocationsOf(t, id)| <= 1
    requires id in t.materiels && t.materiels[id].assignedTo.Some?
    requires MarkIrreparableWidenedOutcome(t, caller, id, reason, disposalMethod, now).result.Ok?
    ensures ActiveAllocationsOf(MarkIrreparableWidenedOutcome(t, caller, id, reason, disposalMethod, now).tables, id) == {}
  {
    var o := MarkIrreparableWidenedOutcome(t, caller, id, reason, disposalMethod, now);
    var m1 := MarkedIrreparable(t.materiels[id], caller, reason, disposalMethod, now);
    var t1 := t.(materiels := t.materiels[id := m1]);
    assert ActiveAllocationsOf(t1, id) == ActiveAllocationsOf(t, id);
    var t2 := AfterAllocationStep(t1, caller, id, true, reason, now);
    assert o.tables.allocations == t2.allocations;
    if ActiveAllocationsOf(t, id) != {} {
      var k := MinId(ActiveAllocationsOf(t, id));
      forall j | j in ActiveAllocationsOf(t, id)
        ensures j == k
      {
        if j != k {
          assert {j, k} <= ActiveAllocationsOf(t, id);
          assert |{j, k}| == 2;
          SubsetSize({j, k}, ActiveAllocationsOf(t, id));
        }
      }
      forall j | j in o.tables.allocations && o.tables.allocations[j].materiel == id
        ensures o.tables.allocations[j].status != A.Active
      {
        if j != k {
          assert j !in ActiveAllocationsOf(t, id);
        }
      }
    }
  }

  lemma SubsetSize(s: set<Id>, u: set<Id>)
    requires s <= u
    ensures |s| <= |u|
  {
    assert u == s + (u - s);
  }
}
