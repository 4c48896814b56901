/** User administration: reading, creating, editing and deleting accounts,
    and a user's edit of their own profile. The user schema is not part of
    this model: whether it accepts a document is the parameter `accepts`,
    and the stored credential is compared as it is, without hashing. */
module UserController {
  import opened Common
  import opened Store
  import opened AllocationModel
  import Mt = MaintenanceModel

  /** A user document as the handlers return it, the credential removed. */
  function Public(u: User): (p: User)
    ensures p.password.None? && p.(password := u.password) == u
  {
    u.(password := None)
  }

  /** The check of `getUser` and `updateUser`: administrators may act on any
      account, anyone else on their own only. */
  predicate MayAccess(caller: Caller, id: Id) {
    caller.role == Admin || caller.id == id
  }

  // ---------------------------------------------------------------- read

  /** What `getUser` answers: the account without its credential, the
      allocations held by the user and the maintenance jobs they asked for. */
  datatype Profile = Profile(user: User, allocations: set<Id>, maintenances: set<Id>)

  function GetUser(t: Tables, caller: Caller, id: Id): (r: Result<Profile>)
    ensures r.Ok? <==> MayAccess(caller, id) && id in t.users
    ensures !MayAccess(caller, id) ==> r == Err(Forbidden)
    ensures MayAccess(caller, id) && id !in t.users ==> r == Err(NotFound)
    ensures r.Ok? ==>
      && r.value.user == Public(t.users[id])
      && (forall a :: a in r.value.allocations <==> a in t.allocations && t.allocations[a].user == Some(id))
      && (forall m :: m in r.value.maintenances <==> m in t.maintenances && t.maintenances[m].requestedBy == id)
  {
    if !MayAccess(caller, id) then Err(Forbidden)
    else if id !in t.users then Err(NotFound)
    else
      Ok(Profile(Public(t.users[id]),
        set a | a in t.allocations && t.allocations[a].user == Some(id),
        set m | m in t.maintenances && t.maintenances[m].requestedBy == id))
  }

  /** `getTechnicians`: exactly the accounts whose role is technicien. */
  function Technicians(t: Tables): (s: set<Id>)
    ensures forall id :: id in s <==> id in t.users && t.users[id].role == Technicien
  {
    set id | id in t.users && t.users[id].role == Technicien
  }

  // ---------------------------------------------------------------- create

  /** The accounts a lookup by e-mail finds. An absent e-mail is dropped from
      the filter, which then finds every account. */
  function EmailHolders(t: Tables, email: Option<string>): (s: set<Id>)
    ensures forall id :: id in s <==> id in t.users && (email.Some? ==> t.users[id].email == email)
  {
    set id | id in t.users && (email.Some? ==> t.users[id].email == email)
  }

  datatype UserInput = UserInput(name: Option<string>, email: Option<string>, password: Option<string>, role: Option<Role>)

  /** The account `createUser` builds: role utilisateur unless one is given. */
  function NewUser(i: UserInput): (u: User)
    ensures u.name == i.name && u.email == i.email && u.password == i.password
    ensures u.role == (if i.role.Some? then i.role.value else Utilisateur)
  {
    User(i.name, i.email, if i.role.Some? then i.role.value else Utilisateur, i.password)
  }

  /** `createUser`, reserved to administrators: an e-mail already in use is
      refused; otherwise the account is stored if the schema accepts it. */
  function CreateOutcome(t: Tables, i: UserInput, accepts: User -> bool): (o: Outcome<User>)
    ensures o.result.Ok? <==> EmailHolders(t, i.email) == {} && accepts(NewUser(i))
    ensures EmailHolders(t, i.email) != {} ==> o == Outcome(Err(Conflict), t)
    ensures o.result.Err? ==> o.tables == t
    ensures o.result.Ok? ==>
      && o.result.value == Public(NewUser(i))
      && o.tables == t.(users := t.users[t.nextId := NewUser(i)], nextId := t.nextId + 1)
  {
    if EmailHolders(t, i.email) != {} then Outcome(Err(Conflict), t)
    else
      var u := NewUser(i);
      if !accepts(u) then Outcome(Err(ValidationFailed), t)
      else Outcome(Ok(Public(u)), t.(users := t.users[t.nextId := u], nextId := t.nextId + 1))
  }

  method CreateUser(db: Db, caller: Caller, i: UserInput, accepts: User -> bool) returns (r: Result<User>)
    requires caller.role == Admin
    modifies db
    ensures Outcome(r, db.Snapshot()) == CreateOutcome(old(db.Snapshot()), i, accepts)
  {
    var holders := EmailHolders(db.Snapshot(), i.email);
    if holders != {} {
      return Err(Conflict);
    }
    var user := NewUser(i);
    if !accepts(user) {
      return Err(ValidationFailed);
    }
    var id := db.FreshId();
    db.users := db.users[id := user];
    r := Ok(Public(user));
  }

  /** After a successful create the new e-mail is carried by exactly one
      account, the new one; without an e-mail, a create succeeds only on a
      store without accounts. */
  lemma CreatedEmailIsUnique(t: Tables, i: UserInput, accepts: User -> bool)
    ensures var o := CreateOutcome(t, i, accepts);
      && (o.result.Ok? ==> EmailHolders(o.tables, i.email) == {t.nextId})
      && (o.result.Ok? && i.email.None? ==> t.users == map[])
  {
  }

  // ---------------------------------------------------------------- update

  /** A body of `updateUser`: every path it names is written. */
  datatype UserPatch = UserPatch(name: Option<string>, email: Option<string>, password: Option<string>, role: Option<Role>)

  /** The body once a non-administrator's `role` has been dropped. */
  function Stripped(caller: Caller, p: UserPatch): (q: UserPatch)
    ensures caller.role != Admin ==> q.role.None?
    ensures q.(role := p.role) == p
    ensures caller.role == Admin ==> q == p
  {
    if caller.role != Admin then p.(role := None) else p
  }

  function Patched(u: User, p: UserPatch): (v: User)
    ensures v.name == (if p.name.Some? then p.name else u.name)
    ensures v.email == (if p.email.Some? then p.email else u.email)
    ensures v.password == (if p.password.Some? then p.password else u.password)
    ensures v.role == (if p.role.Some? then p.role.value else u.role)
  {
    User(if p.name.Some? then p.name else u.name,
         if p.email.Some? then p.email else u.email,
         if p.role.Some? then p.role.value else u.role,
         if p.password.Some? then p.password else u.password)
  }

  /** `updateUser`: refused unless the caller may access the account; a
      non-administrator's role change is silently dropped; the update runs
      the schema's validators. */
  function UpdateOutcome(t: Tables, caller: Caller, id: Id, p: UserPatch, accepts: User -> bool): (o: Outcome<User>)
    ensures !MayAccess(caller, id) ==> o == Outcome(Err(Forbidden), t)
    ensures MayAccess(caller, id) && id !in t.users ==> o == Outcome(Err(NotFound), t)
    ensures o.result.Ok? <==>
      MayAccess(caller, id) && id in t.users && accepts(Patched(t.users[id], Stripped(caller, p)))
    ensures o.result.Err? ==> o.tables == t
    ensures o.result.Ok? ==>
      && o.tables == t.(users := t.users[id := Patched(t.users[id], Stripped(caller, p))])
      && o.result.value == Public(o.tables.users[id])
  {
    if !MayAccess(caller, id) then Outcome(Err(Forbidden), t)
    else if id !in t.users then Outcome(Err(NotFound), t)
    else
      var v := Patched(t.users[id], Stripped(caller, p));
      if !accepts(v) then Outcome(Err(ValidationFailed), t)
      else Outcome(Ok(Public(v)), t.(users := t.users[id := v]))
  }

  method UpdateUser(db: Db, caller: Caller, id: Id, p: UserPatch, accepts: User -> bool) returns (r: Result<User>)
    modifies db
    ensures Outcome(r, db.Snapshot()) == UpdateOutcome(old(db.Snapshot()), caller, id, p, accepts)
  {
    if caller.role != Admin && caller.id != id {
      return Err(Forbidden);
    }
    if id !in db.users {
      return Err(NotFound);
    }
    var body := p;
    if body.role.Some? && caller.role != Admin {
      body := body.(role := None);
    }
    var user := Patched(db.users[id], body);
    if !accepts(user) {
      return Err(ValidationFailed);
    }
    db.users := db.users[id := user];
    r := Ok(Public(user));
  }

  /** No one but an administrator changes a role through `updateUser`, and
      no one changes another account except an administrator. */
  lemma UpdateKeepsRoleUnlessAdmin(t: Tables, caller: Caller, id: Id, p: UserPatch, accepts: User -> bool)
    requires caller.role != Admin
    ensures var o := UpdateOutcome(t, caller, id, p, accepts);
      && (o.result.Ok? ==> id == caller.id && o.tables.users[id].role == t.users[id].role)
      && (forall j :: j in t.users && j != caller.id ==> j in o.tables.users && o.tables.users[j] == t.users[j])
  {
  }

  // ---------------------------------------------------------------- delete

  /** The accounts' blockers: an active allocation held, or an open
      maintenance job asked for. */
  function ActiveAllocationsHeld(t: Tables, user: Id): (s: set<Id>)
    ensures forall a :: a in s <==> a in t.allocations && t.allocations[a].user == Some(user) && t.allocations[a].status == Active
  {
    set a | a in t.allocations && t.allocations[a].user == Some(user) && t.allocations[a].status == Active
  }

  function OpenMaintenancesAsked(t: Tables, user: Id): (s: set<Id>)
    ensures forall m :: m in s <==> m in t.maintenances && t.maintenances[m].requestedBy == user && Mt.IsOpen(t.maintenances[m])
  {
    set m | m in t.maintenances && t.maintenances[m].requestedBy == user && Mt.IsOpen(t.maintenances[m])
  }

  /** `deleteUser`, reserved to administrators. */
  function DeleteOutcome(t: Tables, id: Id): (o: Outcome<()>)
    ensures id !in t.users ==> o == Outcome(Err(NotFound), t)
    ensures o.result.Ok? <==>
      id in t.users && ActiveAllocationsHeld(t, id) == {} && OpenMaintenancesAsked(t, id) == {}
    ensures o.result.Err? ==> o.tables == t
    ensures id in t.users && !o.result.Ok? ==> o.result == Err(InUse)
    ensures o.result.Ok? ==> o.tables == t.(users := t.users - {id})
  {
    if id !in t.users then Outcome(Err(NotFound), t)
    else if ActiveAllocationsHeld(t, id) != {} then Outcome(Err(InUse), t)
    else if OpenMaintenancesAsked(t, id) != {} then Outcome(Err(InUse), t)
    else Outcome(Ok(()), t.(users := t.users - {id}))
  }

  method DeleteUser(db: Db, caller: Caller, id: Id) returns (r: Result<()>)
    requires caller.role == Admin
    modifies db
    ensures Outcome(r, db.Snapshot()) == DeleteOutcome(old(db.Snapshot()), id)
  {
    if id !in db.users {
      return Err(NotFound);
    }
    var held := ActiveAllocationsHeld(db.Snapshot(), id);
    if held != {} {
      return Err(InUse);
    }
    var asked := OpenMaintenancesAsked(db.Snapshot(), id);
    if asked != {} {
      return Err(InUse);
    }
    db.users := db.users - {id};
    r := Ok(());
  }

  /** After a delete, no active allocation and no open maintenance job
      refers to the removed account. */
  lemma DeleteLeavesNoActiveReference(t: Tables, id: Id)
    ensures var o := DeleteOutcome(t, id);
      o.result.Ok? ==>
        && id !in o.tables.users
        && (forall a :: a in o.tables.allocations && o.tables.allocations[a].status == Active ==> o.tables.allocations[a].user != Some(id))
        && (forall m :: m in o.tables.maintenances && Mt.IsOpen(o.tables.maintenances[m]) ==> o.tables.maintenances[m].requestedBy != id)
  {
    var o := DeleteOutcome(t, id);
    if o.result.Ok? {
      forall a | a in o.tables.allocations && o.tables.allocations[a].status == Active
        ensures o.tables.allocations[a].user != Some(id)
      {
        assert a !in ActiveAllocationsHeld(t, id);
      }
      forall m | m in o.tables.maintenances && Mt.IsOpen(o.tables.maintenances[m])
        ensures o.tables.maintenances[m].requestedBy != id
      {
        assert m !in OpenMaintenancesAsked(t, id);
      }
    }
  }

  // ---------------------------------------------------------------- own profile

  datatype ProfileEdit = ProfileEdit(name: Option<string>, email: Option<string>,
                                     currentPassword: Option<string>, newPassword: Option<string>)

  /** The password change rule of `updateMyProfile`: a new password needs
      the current one, and the current one must match the stored credential. */
  function PasswordCheck(u: User, e: ProfileEdit): (r: Option<Error>)
    ensures r.None? <==> !Truthy(e.newPassword) || (Truthy(e.currentPassword) && u.password == e.currentPassword)
    ensures r.Some? ==> r.value == BadCredentials
  {
    if !Truthy(e.newPassword) then None
    else if !Truthy(e.currentPassword) then Some(BadCredentials)
    else if u.password != e.currentPassword then Some(BadCredentials)
    else None
  }

  /** The caller's account after the edit: name and e-mail replaced only
      when given, the credential replaced by the new password when one is
      given. The role never changes. */
  function Edited(u: User, e: ProfileEdit): (v: User)
    ensures v.name == (if Truthy(e.name) then e.name else u.name)
    ensures v.email == (if Truthy(e.email) then e.email else u.email)
    ensures v.password == (if Truthy(e.newPassword) then e.newPassword else u.password)
    ensures v.role == u.role
  {
    var v := if Truthy(e.name) then u.(name := e.name) else u;
    var v := if Truthy(e.email) then v.(email := e.email) else v;
    if Truthy(e.newPassword) then v.(password := e.newPassword) else v
  }

  /** `updateMyProfile`, open to every signed-in user, on their own account. */
  function EditProfileOutcome(t: Tables, caller: Caller, e: ProfileEdit, accepts: User -> bool): (o: Outcome<User>)
    ensures caller.id !in t.users ==> o == Outcome(Err(NotFound), t)
    ensures o.result.Ok? <==>
      caller.id in t.users && PasswordCheck(t.users[caller.id], e).None? && accepts(Edited(t.users[caller.id], e))
    ensures o.result.Err? ==> o.tables == t
    ensures o.result.Ok? ==>
      && o.tables == t.(users := t.users[caller.id := Edited(t.users[caller.id], e)])
      && o.result.value == Public(o.tables.users[caller.id])
  {
    if caller.id !in t.users then Outcome(Err(NotFound), t)
    else
      var u := t.users[caller.id];
      var check := PasswordCheck(u, e);
      if check.Some? then Outcome(Err(check.value), t)
      else
        var v := Edited(u, e);
        if !accepts(v) then Outcome(Err(ValidationFailed), t)
        else Outcome(Ok(Public(v)), t.(users := t.users[caller.id := v]))
  }

  method EditProfile(db: Db, caller: Caller, e: ProfileEdit, accepts: User -> bool) returns (r: Result<User>)
    modifies db
    ensures Outcome(r, db.Snapshot()) == EditProfileOutcome(old(db.Snapshot()), caller, e, accepts)
  {
    if caller.id !in db.users {
      return Err(NotFound);
    }
    var user := db.users[caller.id];
    var stored := user.password;
    if Truthy(e.name) {
      user := user.(name := e.name);
    }
    if Truthy(e.email) {
      user := user.(email := e.email);
    }
    if Truthy(e.newPassword) {
      if !Truthy(e.currentPassword) {
        return Err(BadCredentials);
      }
      if stored != e.currentPassword {
        return Err(BadCredentials);
      }
      user := user.(password := e.newPassword);
    }
    if !accepts(user) {
      return Err(ValidationFailed);
    }
    db.users := db.users[caller.id := user];
    r := Ok(Public(user));
  }

  /** Without the current password, the stored credential never changes. */
  lemma CredentialNeedsCurrentPassword(t: Tables, caller: Caller, e: ProfileEdit, accepts: User -> bool)
    requires caller.id in t.users
    requires EditProfileOutcome(t, caller, e, accepts).tables.users[caller.id].password != t.users[caller.id].password
    ensures Truthy(e.currentPassword) && e.currentPassword == t.users[caller.id].password
    ensures e.newPassword.Some? && EditProfileOutcome(t, caller, e, accepts).tables.users[caller.id].password == e.newPassword
  {
  }
}
