/**
 * The shared database and the handlers that change it, written step by step as
 * the route files do, each proved to give the answer and the store that the
 * corresponding function of `AdminRoute` or `InitRoute` prescribes.
 */
module Database {
  import opened Options
  import opened Store
  import opened AdminRoute
  import opened InitRoute

  /** PUT builds `updateData` one truthy field at a time. */
  method BuildUpdateData(b: PutBody) returns (d: UpdateData)
    ensures d.name.Some? <==> b.name != ""
    ensures d.username.Some? <==> b.username != ""
    ensures d.password.Some? <==> b.password != ""
    ensures d.role.Some? <==> b.role != ""
    ensures d == UpdateDataOf(b)
  {
    d := UpdateData(None, None, None, None);
    if b.name != "" { d := d.(name := Some(b.name)); }
    if b.username != "" { d := d.(username := Some(b.username)); }
    if b.password != "" { d := d.(password := Some(b.password)); }
    if b.role != "" { d := d.(role := Some(b.role)); }
  }

  class Db {
    var admins: seq<Admin>
    var audit: seq<AuditEntry>
    var config: map<string, RtConfig>
    var nextId: nat
    var clock: nat

    /** The tables as one value. */
    function State(): Tables
      reads this
    {
      Tables(admins, audit, config, nextId, clock)
    }

    ghost predicate Valid()
      reads this
    {
      WellFormed(State())
    }

    /** A fresh, empty database. */
    constructor ()
      ensures Valid() && State() == EmptyTables
    {
      admins, audit, config, nextId, clock := [], [], map[], 0, 0;
      EmptyIsWellFormed();
    }

    /** `db.adminUser.create`: the caller has made sure the username is free. */
    method InsertAdmin(username: string, password: string, name: string, role: string) returns (a: Admin)
      requires Valid() && !UsernameTaken(admins, username)
      modifies this
      ensures Valid()
      ensures State() == Insert(old(State()), username, password, name, role)
      ensures a == admins[|admins| - 1]
    {
      a := Admin(nextId, username, password, name, role, clock);
      admins := admins + [a];
      nextId := nextId + 1;
      clock := clock + 1;
      assert State() == Insert(old(State()), username, password, name, role);
    }

    /** `ensureDefaultAdmin`. */
    method EnsureDefaultAdmin()
      requires Valid()
      modifies this
      ensures Valid()
      ensures State() == SeedSpec(old(State()))
    {
      if |admins| == 0 {
        var _ := InsertAdmin(DefaultUsername, DefaultPassword, DefaultAdminName, SuperAdminRole);
      }
      if |config| == 0 {
        config := config[ConfigKey := DefaultConfig];
      }
    }

    /** `GET /api/admin`. */
    method GetAdmins() returns (r: ListResponse)
      requires Valid()
      modifies this
      ensures Valid()
      ensures Outcome(r, State()) == ListSpec(old(State()))
    {
      EnsureDefaultAdmin();
      r := ListResponse(200, true, ListView(admins));
    }

    /** The login branch of `POST /api/admin`. */
    method Login(username: string, password: string) returns (r: Response)
      requires Valid()
      modifies this
      ensures Valid()
      ensures Outcome(r, State()) == LoginSpec(old(State()), username, password)
    {
      var found := FindCredentials(admins, username, password);
      if found.None? {
        return Fail(401, WrongCredentialsMsg);
      }
      var a := admins[found.value];
      audit := audit + [LoginAudit(a)];
      r := Ok(a);
    }

    /** The create branch of `POST /api/admin`. */
    method Create(b: PostBody) returns (r: Response)
      requires Valid()
      modifies this
      ensures Valid()
      ensures Outcome(r, State()) == CreateSpec(old(State()), b)
    {
      if !MayManageAdmins(b.requesterRole) {
        return Fail(403, CreateForbiddenMsg);
      }
      if UsernameTaken(admins, b.username) {
        return Fail(400, UsernameInUseMsg);
      }
      var a := InsertAdmin(b.username, b.password, b.name, Or(b.role, StaffRole));
      audit := audit + [CreateAudit(b)];
      r := Ok(a);
    }

    /** `POST /api/admin`: bootstrap, then the branch `action` names. */
    method PostAdmin(b: PostBody) returns (r: Response)
      requires Valid()
      modifies this
      ensures Valid()
      ensures Outcome(r, State()) == PostSpec(old(State()), b)
    {
      EnsureDefaultAdmin();
      if b.action == "login" {
        r := Login(b.username, b.password);
      } else if b.action == "create" {
        r := Create(b);
      } else {
        r := Fail(400, InvalidActionMsg);
      }
    }

    /** `PUT /api/admin`. */
    method PutAdmin(b: PutBody) returns (r: Response)
      requires Valid()
      modifies this
      ensures Valid()
      ensures Outcome(r, State()) == UpdateSpec(old(State()), b)
    {
      ghost var t := State();
      if !MayManageAdmins(b.requesterRole) {
        return Fail(403, UpdateForbiddenMsg);
      }
      if b.id.None? {
        return Fail(400, IdRequiredMsg);
      }
      var id := b.id.value;
      if b.username != "" {
        if UsernameTakenByOther(admins, b.username, id) {
          return Fail(400, UsernameInUseMsg);
        }
      }
      var data := BuildUpdateData(b);
      var target := IndexOfId(admins, id);
      if target.None? {
        return Fail(500, UpdateFailedMsg);
      }
      var a := ApplyUpdate(admins[target.value], data);
      admins := admins[target.value := a];
      audit := audit + [UpdateAudit(b.currentUser, a)];
      r := Ok(a);
      assert Outcome(r, State()) == UpdateSpec(t, b);
    }

    /** `DELETE /api/admin`. */
    method DeleteAdmin(q: DeleteParams) returns (r: Response)
      requires Valid()
      modifies this
      ensures Valid()
      ensures Outcome(r, State()) == DeleteSpec(old(State()), q)
    {
      if !MayManageAdmins(q.requesterRole) {
        return Fail(403, DeleteForbiddenMsg);
      }
      if q.id.None? {
        return Fail(400, IdRequiredMsg);
      }
      var target := IndexOfId(admins, q.id.value);
      if target.Some? && admins[target.value].role == SuperAdminRole {
        var superAdmins := SuperAdminCount(admins);
        if superAdmins <= 1 {
          return Fail(400, LastSuperAdminMsg);
        }
      }
      if target.None? {
        return Fail(500, DeleteFailedMsg);
      }
      RemoveAtPreservesWellFormed(State(), target.value);
      admins := RemoveAt(admins, target.value);
      r := Response(200, true, DeletedMsg, None);
    }

    /** `GET /api/init`. */
    method GetInit(f: Faults) returns (r: InitResponse)
      requires Valid()
      modifies this
      ensures Valid()
      ensures InitOutcome(r, State()) == InitSpec(old(State()), f)
    {
      var existing: Option<Admin> := None;
      if !f.lookupFails {
        if |admins| > 0 {
          existing := Some(admins[0]);
        }
      }
      if existing.Some? {
        return InitResponse(200, true, AlreadyInitializedMsg,
                            Some(InitAdmin(existing.value.username, existing.value.name)), "", "");
      }
      if f.adminCreateError.Some? {
        return Failure(f.adminCreateError.value);
      }
      if UsernameTaken(admins, InitUsername) {
        return Failure(UniqueViolationMsg);
      }
      var a := InsertAdmin(InitUsername, InitPassword, InitAdminName, SuperAdminRole);
      if !f.configCreateFails && ConfigKey !in config {
        config := config[ConfigKey := InitConfig];
      }
      r := InitResponse(200, true, InitializedMsg, Some(InitAdmin(a.username, a.name)), "", "");
    }
  }

  /** Two bootstraps in a row: the second leaves the tables as the first left them. */
  method BootstrapTwice(db: Db)
    requires db.Valid()
    modifies db
    ensures db.Valid() && db.State() == SeedSpec(old(db.State()))
  {
    db.EnsureDefaultAdmin();
    ghost var once := db.State();
    db.EnsureDefaultAdmin();
    assert db.State() == once;
  }
}
