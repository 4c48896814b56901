/** The asset schema (`Materiel`): its enumerations, defaults and field
    validators, the record a create builds, and the partial update an edit
    applies. Stored strings are the values after the schema's `trim` setter. */
module MaterielModel {
  import opened Common
  import opened JsText

  /** Disposition of an asset. `Irreparable` is the value the mark-irreparable
      handler writes; it is not one of the values the schema admits. */
  datatype MaterielStatus = Disponible | Affecte | EnMaintenance | HorsService | Irreparable

  /** The schema's status enumeration: disponible, affecté, maintenance, hors_service. */
  predicate InStatusEnum(s: MaterielStatus) {
    s != Irreparable
  }

  /** The ten asset types the schema admits. */
  const TypeLabels: set<string> :=
    {"Ordinateur", "Caméra", "Microphone", "Écran", "Clavier", "Souris", "Câble", "Téléphone", "Tablette", "Autre"}

  const CategoryLabels: set<string> := {"Électronique", "Informatique", "Audio/Video", "Mobilier", "Autre"}

  const ConditionLabels: set<string> := {"Excellent", "Bon", "Moyen", "Mauvais"}

  const DefaultCategory: string := "Autre"
  const DefaultCondition: string := "Bon"
  const DefaultMaintenanceCycle: int := 365

  /** What marking an asset irreparable records about it. These paths are not
      declared by the schema; only the widened variant of the handler keeps them. */
  datatype IrreparableInfo = IrreparableInfo(date: int, reason: Option<string>, reportedBy: Id, disposalMethod: Option<string>)

  datatype Materiel = Materiel(
    name: string,
    kind: string,                   // the `type` path
    description: Option<string>,
    serialNumber: Option<string>,
    status: MaterielStatus,
    location: string,
    purchaseDate: int,
    purchasePrice: Option<int>,
    assignedTo: Option<Id>,
    assignedDate: Option<int>,
    lastMaintenance: Option<int>,
    nextMaintenance: Option<int>,
    maintenanceCycle: int,
    notes: Option<string>,
    category: Option<string>,
    condition: Option<string>,
    irreparable: Option<IrreparableInfo>)

  /** `required` on a string path: absent and empty both fail. Stored values
      have been trimmed, so a blank input is stored as "". */
  predicate Required(s: string) {
    s != ""
  }

  /** An optional string path with an enumeration: absent passes, any
      present value must be listed. */
  predicate InEnum(v: Option<string>, labels: set<string>) {
    v.None? || v.value in labels
  }

  /** The validators of every path but `status`. */
  predicate FieldsValid(m: Materiel) {
    && Required(m.name)
    && m.kind in TypeLabels
    && Required(m.location)
    && (m.purchasePrice.Some? ==> m.purchasePrice.value >= 0)
    && InEnum(m.category, CategoryLabels)
    && InEnum(m.condition, ConditionLabels)
  }

  /** Every validator the schema attaches to an asset document. */
  predicate SchemaValid(m: Materiel) {
    FieldsValid(m) && InStatusEnum(m.status)
  }

  /** The schema with `irreparable` added to the status enumeration, as the
      mark-irreparable handler evidently expects. */
  predicate WidenedSchemaValid(m: Materiel) {
    FieldsValid(m)
  }

  /** A required string path receives the trimmed input, or nothing. */
  function RequiredText(v: Option<string>): (r: string)
    ensures v.None? ==> r == ""
    ensures v.Some? ==> r == Trim(v.value)
  {
    if v.None? then "" else Trim(v.value)
  }

  function TrimmedText(v: Option<string>): (r: Option<string>)
    ensures r.None? <==> v.None?
    ensures v.Some? ==> r.value == Trim(v.value)
  {
    if v.None? then None else Some(Trim(v.value))
  }

  function OrDefault<T>(v: Option<T>, d: T): (r: T)
    ensures v.Some? ==> r == v.value
    ensures v.None? ==> r == d
  {
    if v.Some? then v.value else d
  }

  /** The fields a create request supplies, after the handler's normalisation. */
  datatype MaterielInput = MaterielInput(
    name: Option<string>,
    kind: Option<string>,
    description: Option<string>,
    serialNumber: Option<string>,
    location: Option<string>,
    purchaseDate: Option<int>,
    purchasePrice: Option<int>,
    category: Option<string>,
    condition: Option<string>,
    maintenanceCycle: Option<int>,
    notes: Option<string>)

  /** The document `Materiel.create` builds: trim setters, then the
      defaults for every absent path (status disponible, purchase date now,
      cycle 365 days, category Autre, condition Bon). */
  function NewMateriel(i: MaterielInput, now: int): (m: Materiel)
    ensures m.status == Disponible && m.assignedTo.None? && m.assignedDate.None?
    ensures m.serialNumber == i.serialNumber
    ensures i.category.None? ==> m.category == Some(DefaultCategory)
    ensures i.condition.None? ==> m.condition == Some(DefaultCondition)
    ensures i.maintenanceCycle.None? ==> m.maintenanceCycle == DefaultMaintenanceCycle
    ensures i.purchaseDate.None? ==> m.purchaseDate == now
  {
    Materiel(
      RequiredText(i.name), if i.kind.None? then "" else i.kind.value, TrimmedText(i.description),
      i.serialNumber, Disponible, RequiredText(i.location), OrDefault(i.purchaseDate, now),
      i.purchasePrice, None, None, None, None, OrDefault(i.maintenanceCycle, DefaultMaintenanceCycle),
      i.notes, Some(OrDefault(i.category, DefaultCategory)), Some(OrDefault(i.condition, DefaultCondition)), None)
  }

  /** A freshly created asset is valid exactly when its name and location are
      not blank, its type, category and condition are listed and its price is
      not negative. */
  lemma {:induction false} NewMaterielValid(i: MaterielInput, now: int)
    ensures SchemaValid(NewMateriel(i, now)) <==>
      && i.name.Some? && Trim(i.name.value) != ""
      && i.location.Some? && Trim(i.location.value) != ""
      && i.kind.Some? && i.kind.value in TypeLabels
      && (i.purchasePrice.Some? ==> i.purchasePrice.value >= 0)
      && (i.category.Some? ==> i.category.value in CategoryLabels)
      && (i.condition.Some? ==> i.condition.value in ConditionLabels)
  {
    var m := NewMateriel(i, now);
    DefaultsListed();
    assert m.kind in TypeLabels <==> i.kind.Some? && i.kind.value in TypeLabels;
    assert InEnum(m.category, CategoryLabels) <==> (i.category.Some? ==> i.category.value in CategoryLabels);
    assert InEnum(m.condition, ConditionLabels) <==> (i.condition.Some? ==> i.condition.value in ConditionLabels);
  }

  /** The empty type is not a listed type; the default category and
      condition are listed ones. */
  lemma DefaultsListed()
    ensures "" !in TypeLabels
    ensures DefaultCategory in CategoryLabels && DefaultCondition in ConditionLabels
  {
  }

  /** A required string path under an edit: the trimmed new value when the
      edit names the path, the stored one otherwise. */
  function TrimmedOr(v: Option<string>, current: string): (r: string)
    ensures v.Some? ==> r == Trim(v.value)
    ensures v.None? ==> r == current
  {
    if v.Some? then Trim(v.value) else current
  }

  /** The body of an edit: one entry per path the schema declares, absent
      when the body does not name it. Paths outside the schema are dropped by
      the update query and have no entry. */
  datatype MaterielPatch = MaterielPatch(
    name: Option<string>,
    kind: Option<string>,
    description: Option<string>,
    serialNumber: Option<string>,
    status: Option<MaterielStatus>,
    location: Option<string>,
    purchaseDate: Option<int>,
    purchasePrice: Option<int>,
    assignedTo: Option<Id>,
    assignedDate: Option<int>,
    lastMaintenance: Option<int>,
    nextMaintenance: Option<int>,
    maintenanceCycle: Option<int>,
    notes: Option<string>,
    category: Option<string>,
    condition: Option<string>)

  /** The edit that names no path. */
  const NoEdit: MaterielPatch :=
    MaterielPatch(None, None, None, None, None, None, None, None, None, None, None, None, None, None, None, None)

  /** Update validators: each path present in the edit must pass its own
      validator. Paths the edit does not name are not checked. */
  predicate PatchValid(p: MaterielPatch) {
    && (p.name.Some? ==> Required(Trim(p.name.value)))
    && (p.kind.Some? ==> p.kind.value in TypeLabels)
    && (p.status.Some? ==> InStatusEnum(p.status.value))
    && (p.location.Some? ==> Required(Trim(p.location.value)))
    && (p.purchasePrice.Some? ==> p.purchasePrice.value >= 0)
    && (p.category.Some? ==> p.category.value in CategoryLabels)
    && (p.condition.Some? ==> p.condition.value in ConditionLabels)
  }

  /** The document after a `findByIdAndUpdate` with this edit: every named
      path takes the edit's value (trimmed where the schema trims), every
      other path, and the irreparable record the schema does not declare,
      keep theirs. */
  function ApplyPatch(m: Materiel, p: MaterielPatch): (r: Materiel)
    ensures p.status.Some? ==> r.status == p.status.value
    ensures p.status.None? ==> r.status == m.status
    ensures p.assignedTo.Some? ==> r.assignedTo == p.assignedTo
    ensures p.assignedTo.None? ==> r.assignedTo == m.assignedTo
    ensures p.assignedDate.None? ==> r.assignedDate == m.assignedDate
    ensures p.serialNumber.None? ==> r.serialNumber == m.serialNumber
    ensures p.name.Some? ==> r.name == Trim(p.name.value)
    ensures p.description.Some? ==> r.description == Some(Trim(p.description.value))
    ensures r.irreparable == m.irreparable
    ensures p == NoEdit ==> r == m
  {
    Materiel(
      TrimmedOr(p.name, m.name), OrDefault(p.kind, m.kind), Keep(TrimmedText(p.description), m.description),
      Keep(p.serialNumber, m.serialNumber), OrDefault(p.status, m.status), TrimmedOr(p.location, m.location),
      OrDefault(p.purchaseDate, m.purchaseDate), Keep(p.purchasePrice, m.purchasePrice),
      Keep(p.assignedTo, m.assignedTo), Keep(p.assignedDate, m.assignedDate),
      Keep(p.lastMaintenance, m.lastMaintenance), Keep(p.nextMaintenance, m.nextMaintenance),
      OrDefault(p.maintenanceCycle, m.maintenanceCycle), Keep(p.notes, m.notes),
      Keep(p.category, m.category), Keep(p.condition, m.condition), m.irreparable)
  }

  /** An edit that passes the update validators keeps a valid asset valid. */
  lemma PatchKeepsValid(m: Materiel, p: MaterielPatch)
    requires SchemaValid(m) && PatchValid(p)
    ensures SchemaValid(ApplyPatch(m, p))
  {
  }

  /** The three paths every hand-over sets: status affecté, the assignee and
      the hand-over date. */
  function HandedOver(m: Materiel, user: Option<Id>, now: int): (r: Materiel)
    ensures r.status == Affecte && r.assignedTo == user && r.assignedDate == Some(now)
    ensures r.(status := m.status, assignedTo := m.assignedTo, assignedDate := m.assignedDate) == m
  {
    m.(status := Affecte, assignedTo := user, assignedDate := Some(now))
  }

  /** The three paths every give-back sets: status disponible, no assignee,
      no hand-over date. */
  function Released(m: Materiel): (r: Materiel)
    ensures r.status == Disponible && r.assignedTo.None? && r.assignedDate.None?
    ensures r.(status := m.status, assignedTo := m.assignedTo, assignedDate := m.assignedDate) == m
  {
    m.(status := Disponible, assignedTo := None, assignedDate := None)
  }

  /** Giving back an asset that was available and unassigned before its
      hand-over restores it exactly. */
  lemma HandOverThenRelease(m: Materiel, user: Option<Id>, now: int)
    requires m.status == Disponible && m.assignedTo.None? && m.assignedDate.None?
    ensures Released(HandedOver(m, user, now)) == m
  {
  }
}
