/**
 * The behaviour of the `/api/admin` handlers as functions from the store before
 * a request to the response and the store after it. The class in `Database`
 * carries out the same handlers step by step and is proved equal to these.
 */
module AdminRoute {
  import opened Options
  import opened Store

  // Response messages, as the handlers send them.
  const WrongCredentialsMsg := "Username atau password salah"
  const CreateForbiddenMsg := "Hanya Super Admin yang dapat menambah admin baru"
  const UsernameInUseMsg := "Username sudah digunakan"
  const InvalidActionMsg := "Invalid action"
  const UpdateForbiddenMsg := "Hanya Super Admin yang dapat mengedit admin"
  const IdRequiredMsg := "ID is required"
  const UpdateFailedMsg := "Failed to update admin"
  const DeleteForbiddenMsg := "Hanya Super Admin yang dapat menghapus admin"
  const LastSuperAdminMsg := "Tidak dapat menghapus Super Admin terakhir. Minimal harus ada 1 Super Admin."
  const DeleteFailedMsg := "Failed to delete admin"
  const DeletedMsg := "Admin deleted successfully"

  // The records the bootstrap writes into empty tables.
  const DefaultUsername := "admin"
  const DefaultPassword := "admin123"
  const DefaultAdminName := "Ketua RT"
  const DefaultConfig := RtConfig(
    "Ketua RT", "628123456789", "rt03.kpjati@smartwarga.id", "SmartWarga RT 03 Kp. Jati",
    "https://upload.wikimedia.org/wikipedia/commons/b/bc/Logo_RT_RW.png")

  /** An account as the API returns it: never the password. */
  datatype AdminView = AdminView(id: nat, username: string, name: string, role: string)

  /** An account as the list returns it. */
  datatype ListedAdmin = ListedAdmin(id: nat, username: string, name: string, role: string, createdAt: nat)

  /** The JSON envelope: status, success flag, error or success message, account. */
  datatype Response = Response(status: int, success: bool, message: string, data: Option<AdminView>)

  datatype ListResponse = ListResponse(status: int, success: bool, data: seq<ListedAdmin>)

  /** A handler's answer together with the store it leaves behind. */
  datatype Outcome<R> = Outcome(response: R, after: Tables)

  /** The POST body. An absent string field is the empty string. */
  datatype PostBody = PostBody(
    action: string, username: string, password: string, name: string,
    role: string, requesterRole: string, currentUser: string)

  /** The PUT body. `id` is None when it is absent or empty. */
  datatype PutBody = PutBody(
    id: Option<nat>, name: string, username: string, password: string,
    role: string, requesterRole: string, currentUser: string)

  /** The DELETE query parameters. */
  datatype DeleteParams = DeleteParams(id: Option<nat>, requesterRole: string)

  /** The `updateData` object: the fields PUT overwrites. */
  datatype UpdateData = UpdateData(name: Option<string>, username: Option<string>, password: Option<string>, role: Option<string>)

  /** What a response shows of an account: everything except the password and the creation time. */
  function View(a: Admin): (v: AdminView)
    ensures v.id == a.id && v.username == a.username && v.name == a.name && v.role == a.role
  {
    AdminView(a.id, a.username, a.name, a.role)
  }

  /** The columns GET selects: everything except the password. */
  function Listed(a: Admin): (l: ListedAdmin)
    ensures l.id == a.id && l.username == a.username && l.name == a.name && l.role == a.role
    ensures l.createdAt == a.createdAt
  {
    ListedAdmin(a.id, a.username, a.name, a.role, a.createdAt)
  }

  /** The role gate of create, update and delete: the caller-supplied role string, compared exactly. */
  predicate MayManageAdmins(requesterRole: string): (b: bool)
    ensures b <==> requesterRole == SuperAdminRole
    ensures requesterRole == StaffRole || requesterRole == "" ==> !b
  {
    requesterRole == SuperAdminRole
  }

  function Fail(status: int, message: string): Response {
    Response(status, false, message, None)
  }

  function Ok(a: Admin): Response {
    Response(200, true, "", Some(View(a)))
  }

  /** The login entry names the account that logged in, by name and by username. */
  function LoginAudit(a: Admin): (e: AuditEntry)
    ensures e.kind == LOGIN && e.action == "Login Admin" && e.user == a.name
    ensures |e.target| == |"Username: "| + |a.username| && e.target[|"Username: "|..] == a.username
  {
    AuditEntry("Login Admin", a.name, "Username: " + a.username, LOGIN)
  }

  /** The create entry names the acting user, or `Admin` when none was sent, and the new username. */
  function CreateAudit(b: PostBody): (e: AuditEntry)
    ensures e.kind == CREATE && e.action == "Tambah Admin Baru"
    ensures e.user == (if b.currentUser != "" then b.currentUser else "Admin")
    ensures |e.target| == |"Username: "| + |b.username| && e.target[|"Username: "|..] == b.username
  {
    AuditEntry("Tambah Admin Baru", Or(b.currentUser, "Admin"), "Username: " + b.username, CREATE)
  }

  /** The update entry names the acting user, or `Admin`, and the username after the update. */
  function UpdateAudit(currentUser: string, updated: Admin): (e: AuditEntry)
    ensures e.kind == UPDATE && e.action == "Edit Admin"
    ensures e.user == (if currentUser != "" then currentUser else "Admin")
    ensures |e.target| == |"Username: "| + |updated.username| && e.target[|"Username: "|..] == updated.username
  {
    AuditEntry("Edit Admin", Or(currentUser, "Admin"), "Username: " + updated.username, UPDATE)
  }

  /** `ensureDefaultAdmin`: seed each table only when it is empty. */
  function SeedSpec(t: Tables): (s: Tables)
    ensures s.audit == t.audit
    ensures |s.admins| >= 1 && |s.config| >= 1
    ensures t.admins != [] ==> s.admins == t.admins && s.nextId == t.nextId && s.clock == t.clock
    ensures t.admins == [] ==>
      s.admins == [Admin(t.nextId, DefaultUsername, DefaultPassword, DefaultAdminName, SuperAdminRole, t.clock)]
    ensures |t.config| > 0 ==> s.config == t.config
    ensures |t.config| == 0 ==> s.config == map[ConfigKey := DefaultConfig]
    ensures WellFormed(t) ==> WellFormed(s)
  {
    var t1 := if |t.admins| == 0 then Insert(t, DefaultUsername, DefaultPassword, DefaultAdminName, SuperAdminRole) else t;
    assert |t.config| == 0 ==> t.config == map[];
    if |t1.config| == 0 then t1.(config := t1.config[ConfigKey := DefaultConfig]) else t1
  }

  /** A second bootstrap right after the first writes nothing. */
  lemma SeedIdempotent(t: Tables)
    ensures SeedSpec(SeedSpec(t)) == SeedSpec(t)
  {
  }

  /** `findMany` ordered by `createdAt` descending, without the password. */
  function ListView(admins: seq<Admin>): (r: seq<ListedAdmin>)
    ensures |r| == |admins|
    ensures forall k :: 0 <= k < |r| ==> r[k] == Listed(admins[|admins| - 1 - k])
  {
    if admins == [] then [] else [Listed(admins[|admins| - 1])] + ListView(admins[..|admins| - 1])
  }

  /** In a well-formed table the list is strictly newest first. */
  lemma NewestFirst(t: Tables)
    ensures WellFormed(t) ==> forall i, j :: 0 <= i < j < |t.admins| ==> ListView(t.admins)[i].createdAt > ListView(t.admins)[j].createdAt
  {
    var n := |t.admins|;
    forall i, j | WellFormed(t) && 0 <= i < j < n
      ensures ListView(t.admins)[i].createdAt > ListView(t.admins)[j].createdAt
    {
      assert n - 1 - j < n - 1 - i;
    }
  }

  /** GET: bootstrap, then every account newest first. */
  function ListSpec(t: Tables): (o: Outcome<ListResponse>)
    ensures o.after == SeedSpec(t)
    ensures o.response.status == 200 && o.response.success
    ensures o.response.data == ListView(o.after.admins) && |o.response.data| >= 1
    ensures WellFormed(t) ==>
      forall i, j :: 0 <= i < j < |o.response.data| ==> o.response.data[i].createdAt > o.response.data[j].createdAt
  {
    var s := SeedSpec(t);
    NewestFirst(s);
    Outcome(ListResponse(200, true, ListView(s.admins)), s)
  }

  /** POST login: username and password must match the same row. */
  function LoginSpec(t: Tables, username: string, password: string): (o: Outcome<Response>)
    ensures o.response.success <==> exists i :: 0 <= i < |t.admins| && HasCredentials(t.admins[i], username, password)
    ensures !o.response.success ==> o.response == Fail(401, WrongCredentialsMsg) && o.after == t
    ensures o.response.success ==>
      && o.response.status == 200
      && exists i :: 0 <= i < |t.admins| && HasCredentials(t.admins[i], username, password) &&
           o.response.data == Some(View(t.admins[i])) &&
           o.after == t.(audit := t.audit + [LoginAudit(t.admins[i])])
    ensures o.after.admins == t.admins && o.after.nextId == t.nextId && o.after.clock == t.clock
    ensures WellFormed(t) ==> WellFormed(o.after)
  {
    match FindCredentials(t.admins, username, password)
    case None => Outcome(Fail(401, WrongCredentialsMsg), t)
    case Some(i) => Outcome(Ok(t.admins[i]), t.(audit := t.audit + [LoginAudit(t.admins[i])]))
  }

  /** POST create: Super Admin only, a username not yet in use, role defaulting to 'Staf'. */
  function CreateSpec(t: Tables, b: PostBody): (o: Outcome<Response>)
    ensures !MayManageAdmins(b.requesterRole) ==> o == Outcome(Fail(403, CreateForbiddenMsg), t)
    ensures MayManageAdmins(b.requesterRole) && UsernameTaken(t.admins, b.username) ==>
      o == Outcome(Fail(400, UsernameInUseMsg), t)
    ensures o.response.success <==> MayManageAdmins(b.requesterRole) && !UsernameTaken(t.admins, b.username)
    ensures o.response.success ==>
      |o.after.admins| == |t.admins| + 1 && o.after.admins[..|t.admins|] == t.admins
    ensures o.response.success && |o.after.admins| == |t.admins| + 1 ==>
      var a := o.after.admins[|t.admins|];
      && o.response.status == 200
      && a.username == b.username && a.password == b.password && a.name == b.name
      && a.role == (if b.role != "" then b.role else StaffRole)
      && (WellFormed(t) ==> forall i :: 0 <= i < |t.admins| ==> t.admins[i].id != a.id)
      && o.response.data == Some(View(a))
      && o.after.audit == t.audit + [CreateAudit(b)]
      && o.after.config == t.config
    ensures WellFormed(t) ==> WellFormed(o.after)
  {
    if !MayManageAdmins(b.requesterRole) then Outcome(Fail(403, CreateForbiddenMsg), t)
    else if UsernameTaken(t.admins, b.username) then Outcome(Fail(400, UsernameInUseMsg), t)
    else
      var t1 := Insert(t, b.username, b.password, b.name, Or(b.role, StaffRole));
      Outcome(Ok(t1.admins[|t.admins|]), t1.(audit := t1.audit + [CreateAudit(b)]))
  }

  /** POST: bootstrap, then dispatch on `action`. */
  function PostSpec(t: Tables, b: PostBody): (o: Outcome<Response>)
    ensures b.action == "login" ==> o == LoginSpec(SeedSpec(t), b.username, b.password)
    ensures b.action == "create" ==> o == CreateSpec(SeedSpec(t), b)
    ensures b.action != "login" && b.action != "create" ==> o == Outcome(Fail(400, InvalidActionMsg), SeedSpec(t))
    ensures WellFormed(t) ==> WellFormed(o.after)
  {
    var s := SeedSpec(t);
    if b.action == "login" then LoginSpec(s, b.username, b.password)
    else if b.action == "create" then CreateSpec(s, b)
    else Outcome(Fail(400, InvalidActionMsg), s)
  }

  /** The truthy fields of a PUT body. */
  function UpdateDataOf(b: PutBody): (d: UpdateData)
    ensures d.name.Some? <==> b.name != ""
    ensures d.name.Some? ==> d.name.value == b.name
    ensures d.username.Some? <==> b.username != ""
    ensures d.username.Some? ==> d.username.value == b.username
    ensures d.password.Some? <==> b.password != ""
    ensures d.password.Some? ==> d.password.value == b.password
    ensures d.role.Some? <==> b.role != ""
    ensures d.role.Some? ==> d.role.value == b.role
  {
    UpdateData(
      if b.name != "" then Some(b.name) else None,
      if b.username != "" then Some(b.username) else None,
      if b.password != "" then Some(b.password) else None,
      if b.role != "" then Some(b.role) else None)
  }

  /** `db.adminUser.update` with `data`: the present fields are overwritten, nothing else. */
  function ApplyUpdate(a: Admin, d: UpdateData): (r: Admin)
    ensures r.id == a.id && r.createdAt == a.createdAt
    ensures r.name == (if d.name.Some? then d.name.value else a.name)
    ensures r.username == (if d.username.Some? then d.username.value else a.username)
    ensures r.password == (if d.password.Some? then d.password.value else a.password)
    ensures r.role == (if d.role.Some? then d.role.value else a.role)
  {
    var a1 := if d.name.Some? then a.(name := d.name.value) else a;
    var a2 := if d.username.Some? then a1.(username := d.username.value) else a1;
    var a3 := if d.password.Some? then a2.(password := d.password.value) else a2;
    if d.role.Some? then a3.(role := d.role.value) else a3
  }

  /** A PUT that only renames leaves the credentials and the role alone. */
  lemma RenameKeepsCredentials(a: Admin, b: PutBody)
    requires b.username == "" && b.password == "" && b.role == ""
    ensures var r := ApplyUpdate(a, UpdateDataOf(b));
      r.username == a.username && r.password == a.password && r.role == a.role
  {
  }

  /** PUT: role gate, then id, then username clash with another row, then the partial update. */
  function UpdateSpec(t: Tables, b: PutBody): (o: Outcome<Response>)
    ensures o.response.status in {200, 400, 403, 500}
    ensures o.response.status != 200 ==> o.after == t && !o.response.success && o.response.data.None?
    ensures !MayManageAdmins(b.requesterRole) ==> o.response == Fail(403, UpdateForbiddenMsg)
    ensures MayManageAdmins(b.requesterRole) && b.id.None? ==> o.response == Fail(400, IdRequiredMsg)
    ensures (MayManageAdmins(b.requesterRole) && b.id.Some? && b.username != "" &&
             UsernameTakenByOther(t.admins, b.username, b.id.value)) ==>
      o.response == Fail(400, UsernameInUseMsg)
    ensures (MayManageAdmins(b.requesterRole) && b.id.Some? &&
             !(b.username != "" && UsernameTakenByOther(t.admins, b.username, b.id.value)) &&
             forall i :: 0 <= i < |t.admins| ==> t.admins[i].id != b.id.value) ==>
      o.response == Fail(500, UpdateFailedMsg)
    ensures o.response.status == 200 <==>
      && MayManageAdmins(b.requesterRole) && b.id.Some?
      && !(b.username != "" && UsernameTakenByOther(t.admins, b.username, b.id.value))
      && exists i :: 0 <= i < |t.admins| && t.admins[i].id == b.id.value
    ensures o.response.status == 200 ==>
      exists i :: 0 <= i < |t.admins| && t.admins[i].id == b.id.value
        && |o.after.admins| == |t.admins|
        && o.after.admins[i] == ApplyUpdate(t.admins[i], UpdateDataOf(b))
        && (forall j :: 0 <= j < |t.admins| && j != i ==> o.after.admins[j] == t.admins[j])
        && o.response == Ok(o.after.admins[i])
        && o.after == t.(admins := o.after.admins, audit := t.audit + [UpdateAudit(b.currentUser, o.after.admins[i])])
    ensures WellFormed(t) ==> WellFormed(o.after)
  {
    if !MayManageAdmins(b.requesterRole) then Outcome(Fail(403, UpdateForbiddenMsg), t)
    else if b.id.None? then Outcome(Fail(400, IdRequiredMsg), t)
    else if b.username != "" && UsernameTakenByOther(t.admins, b.username, b.id.value) then
      Outcome(Fail(400, UsernameInUseMsg), t)
    else match IndexOfId(t.admins, b.id.value)
      case None => Outcome(Fail(500, UpdateFailedMsg), t)
      case Some(i) =>
        var a := ApplyUpdate(t.admins[i], UpdateDataOf(b));
        var t1 := t.(admins := t.admins[i := a], audit := t.audit + [UpdateAudit(b.currentUser, a)]);
        UpdatePreservesWellFormed(t, i, a);
        Outcome(Ok(a), t1)
  }

  lemma UpdatePreservesWellFormed(t: Tables, i: nat, a: Admin)
    requires i < |t.admins|
    requires a.id == t.admins[i].id && a.createdAt == t.admins[i].createdAt
    requires a.username == t.admins[i].username || !UsernameTakenByOther(t.admins, a.username, a.id)
    ensures WellFormed(t) ==> WellFormed(t.(admins := t.admins[i := a]))
  {
  }

  /** DELETE: role gate, then id, then the last-Super-Admin guard, then the removal; no audit entry. */
  function DeleteSpec(t: Tables, q: DeleteParams): (o: Outcome<Response>)
    ensures o.after.audit == t.audit && o.after.config == t.config
    ensures o.after.nextId == t.nextId && o.after.clock == t.clock
    ensures o.response.status != 200 ==> o.after == t && !o.response.success
    ensures !MayManageAdmins(q.requesterRole) ==> o.response == Fail(403, DeleteForbiddenMsg)
    ensures MayManageAdmins(q.requesterRole) && q.id.None? ==> o.response == Fail(400, IdRequiredMsg)
    ensures (MayManageAdmins(q.requesterRole) && q.id.Some? &&
             forall i :: 0 <= i < |t.admins| ==> t.admins[i].id != q.id.value) ==>
      o.response == Fail(500, DeleteFailedMsg)
    ensures forall i ::
      (WellFormed(t) && MayManageAdmins(q.requesterRole) && q.id.Some? &&
       0 <= i < |t.admins| && t.admins[i].id == q.id.value) ==>
        if t.admins[i].role == SuperAdminRole && SuperAdminCount(t.admins) <= 1 then
          o.response == Fail(400, LastSuperAdminMsg)
        else
          o.response == Response(200, true, DeletedMsg, None) && o.after.admins == RemoveAt(t.admins, i)
    ensures SuperAdminCount(t.admins) >= 1 ==> SuperAdminCount(o.after.admins) >= 1
    ensures WellFormed(t) ==> WellFormed(o.after)
  {
    if !MayManageAdmins(q.requesterRole) then Outcome(Fail(403, DeleteForbiddenMsg), t)
    else if q.id.None? then Outcome(Fail(400, IdRequiredMsg), t)
    else match IndexOfId(t.admins, q.id.value)
      case None => Outcome(Fail(500, DeleteFailedMsg), t)
      case Some(i) =>
        if t.admins[i].role == SuperAdminRole && SuperAdminCount(t.admins) <= 1 then
          Outcome(Fail(400, LastSuperAdminMsg), t)
        else
          SuperAdminCountRemoveAt(t.admins, i);
          RemoveAtPreservesWellFormed(t, i);
          Outcome(Response(200, true, DeletedMsg, None), t.(admins := RemoveAt(t.admins, i)))
  }
}
