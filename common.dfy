/** Shared vocabulary of the equipment-management backend: optional values,
    the failure kinds a handler can answer with, caller identities and roles,
    and the few JavaScript value conventions the handlers rely on. */
module Common {

  datatype Option<T> = None | Some(value: T)

  /** The failure kinds of the handlers. HTTP status codes and message texts
      are not modelled; each failing branch is mapped to one kind. */
  datatype Error =
    | NotFound          // 404: the record looked up by id does not exist
    | InvalidState      // 400: the record's status forbids the transition
    | Conflict          // 400: duplicate serial, duplicate active record, existing e-mail
    | InUse             // 400: delete refused while active records reference the target
    | Forbidden         // 403: the finer owner/admin check made inside a handler
    | BadCredentials    // 400: a password change without the right current password
    | ValidationFailed  // 400: schema validation rejected a save, in a handler whose catch tells it apart
    | ServerError       // 500: a null dereference, a database error, or a rejected save in a handler
                        // whose catch answers every error alike

  datatype Result<T> = Ok(value: T) | Err(error: Error)

  /** A request-body field bound to an enumeration: absent, one of the listed
      values, or some other text, which the schema's `enum` check refuses on
      save. */
  datatype EnumInput<T> = Absent | Listed(value: T) | Unlisted(text: string)

  /** What an assignment `doc.path = input` leaves on the path: the value,
      or nothing when the input was absent (an unlisted one never reaches
      the store). */
  function Assigned<T>(u: EnumInput<T>): (s: Option<T>)
    ensures s.Some? <==> u.Listed?
    ensures u.Listed? ==> s == Some(u.value)
  {
    if u.Listed? then Some(u.value) else None
  }

  /** Document identifiers are opaque; any countable type does. */
  type Id = nat

  /** The roles the backend distinguishes (`req.user.role`). */
  datatype Role = Admin | Technicien | TechnicalManager | Utilisateur | MediaEmployee

  /** The authenticated caller delivered by the auth middleware. */
  datatype Caller = Caller(id: Id, role: Role, name: string)

  /** The recurring `role === 'admin' || role === 'technicien'` test. */
  predicate IsStaff(role: Role) {
    role == Admin || role == Technicien
  }

  /** Milliseconds in a day and in an hour, as used by the date virtuals. */
  const DayMs: int := 1000 * 60 * 60 * 24
  const HourMs: int := 60 * 60 * 1000

  /** JavaScript truthiness of an optional string: absent and "" are falsy. */
  predicate Truthy(s: Option<string>) {
    s.Some? && s.value != ""
  }

  /** How a template literal `${x}` renders an optional string. */
  function Render(s: Option<string>): (r: string)
    ensures s.None? ==> r == "undefined"
    ensures s.Some? ==> r == s.value
  {
    if s.None? then "undefined" else s.value
  }

  /** `notes + line` in JavaScript: an absent `notes` is converted to the
      text "undefined" before the concatenation. */
  function AppendNote(notes: Option<string>, line: string): (r: string)
    ensures notes.Some? ==> |r| == |notes.value| + |line| && r[..|notes.value|] == notes.value
    ensures |r| >= |line| && r[|r| - |line|..] == line
  {
    Render(notes) + line
  }

  /** The notes an allocation created without notes carries after one
      appended line: they start with the text "undefined". */
  lemma AppendNoteToAbsentNotes(line: string)
    ensures AppendNote(None, line)[..9] == "undefined"
    ensures |AppendNote(None, line)| == 9 + |line|
  {
  }

  /** The evidently intended append: absent notes contribute nothing. */
  function AppendNoteCorrected(notes: Option<string>, line: string): (r: string)
    ensures notes.None? ==> r == line
    ensures notes.Some? ==> r == notes.value + line
  {
    match notes
    case None => line
    case Some(n) => n + line
  }

  /** `Math.ceil(x / d)` for a positive divisor, on integers. */
  function CeilDiv(x: int, d: int): (r: int)
    requires d > 0
    ensures (r - 1) * d < x <= r * d
  {
    var q := (-x) / d;
    assert -x == q * d + (-x) % d;
    -q
  }

  /** An update leaves a path alone when its new value is absent: an
      undefined key of an update document, or a path an edit does not name. */
  function Keep<T>(v: Option<T>, current: Option<T>): (r: Option<T>)
    ensures v.Some? ==> r == v
    ensures v.None? ==> r == current
  {
    if v.Some? then v else current
  }

  /** The smallest identifier of a non-empty set: the earliest inserted
      document, which is the one a `findOne` without a sort returns. */
  function MinId(s: set<Id>): (m: Id)
    requires s != {}
    ensures m in s && forall x :: x in s ==> m <= x
  {
    MinExists(s);
    var m :| m in s && forall y :: y in s ==> m <= y;
    m
  }

  lemma MinExists(s: set<Id>)
    requires s != {}
    ensures exists m :: m in s && forall y :: y in s ==> m <= y
  {
    var w :| w in s;
    MinAtLeast(s, 0, w);
  }

  /** Counting up from a lower bound `k` of `s` reaches its least element
      no later than the element `w`. */
  lemma {:induction false} MinAtLeast(s: set<Id>, k: nat, w: Id)
    requires w in s && k <= w
    requires forall y :: y in s ==> k <= y
    ensures exists m :: m in s && forall y :: y in s ==> m <= y
    decreases w - k
  {
    if k in s {
      assert k in s && forall y :: y in s ==> k <= y;
    } else {
      MinAtLeast(s, k + 1, w);
    }
  }
}
