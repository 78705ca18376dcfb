/**
 * The database tables the admin and init endpoints share: the admin accounts,
 * the append-only audit log and the RT configuration keyed by id, together with
 * the two counters that stand in for the generated ids and the creation
 * timestamps the database supplies.
 */
module Store {
  import opened Options

  const SuperAdminRole := "Super Admin"
  const StaffRole := "Staf"

  /** One row of the admin table. */
  datatype Admin = Admin(id: nat, username: string, password: string, name: string, role: string, createdAt: nat)

  datatype AuditType = LOGIN | CREATE | UPDATE

  /** One row of the audit log. */
  datatype AuditEntry = AuditEntry(action: string, user: string, target: string, kind: AuditType)

  /** One row of the RT configuration table (its id is the map key). */
  datatype RtConfig = RtConfig(rtName: string, rtWhatsapp: string, rtEmail: string, appName: string, appLogo: string)

  /** The id of the single well-known configuration record. */
  const ConfigKey := "default"

  /** The whole store. `nextId` is the next fresh id, `clock` the next creation time. */
  datatype Tables = Tables(
    admins: seq<Admin>,
    audit: seq<AuditEntry>,
    config: map<string, RtConfig>,
    nextId: nat,
    clock: nat)

  const EmptyTables := Tables([], [], map[], 0, 0)

  /** The unique index on `username`. */
  ghost predicate DistinctUsernames(admins: seq<Admin>) {
    forall i, j :: 0 <= i < |admins| && 0 <= j < |admins| && i != j ==> admins[i].username != admins[j].username
  }

  /** What the database guarantees about the admin table at all times. */
  ghost predicate WellFormed(t: Tables) {
    && DistinctUsernames(t.admins)
    && (forall i, j :: 0 <= i < |t.admins| && 0 <= j < |t.admins| && i != j ==> t.admins[i].id != t.admins[j].id)
    && (forall i, j :: 0 <= i < j < |t.admins| ==> t.admins[i].createdAt < t.admins[j].createdAt)
    && (forall i :: 0 <= i < |t.admins| ==> t.admins[i].id < t.nextId && t.admins[i].createdAt < t.clock)
  }

  lemma EmptyIsWellFormed()
    ensures WellFormed(EmptyTables)
  {
  }

  /** `findUnique({ where: { username } })` finds a row. */
  function UsernameTaken(admins: seq<Admin>, username: string): (r: bool)
    ensures r <==> exists i :: 0 <= i < |admins| && admins[i].username == username
  {
    if admins == [] then false
    else if admins[0].username == username then true
    else
      var r := UsernameTaken(admins[1..], username);
      assert forall i :: 1 <= i < |admins| ==> admins[i] == admins[1..][i - 1];
      r
  }

  /** `findFirst({ where: { username, NOT: { id } } })` finds a row. */
  function UsernameTakenByOther(admins: seq<Admin>, username: string, id: nat): (r: bool)
    ensures r <==> exists i :: 0 <= i < |admins| && admins[i].username == username && admins[i].id != id
  {
    if admins == [] then false
    else if admins[0].username == username && admins[0].id != id then true
    else
      var r := UsernameTakenByOther(admins[1..], username, id);
      assert forall i :: 1 <= i < |admins| ==> admins[i] == admins[1..][i - 1];
      r
  }

  predicate HasCredentials(a: Admin, username: string, password: string) {
    a.username == username && a.password == password
  }

  /** `findFirst({ where: { username, password } })`: the first matching row. */
  function FindCredentials(admins: seq<Admin>, username: string, password: string): (r: Option<nat>)
    ensures r.Some? ==> r.value < |admins| && HasCredentials(admins[r.value], username, password)
    ensures r.Some? ==> forall j :: 0 <= j < r.value ==> !HasCredentials(admins[j], username, password)
    ensures r.None? ==> forall i :: 0 <= i < |admins| ==> !HasCredentials(admins[i], username, password)
  {
    if admins == [] then None
    else if HasCredentials(admins[0], username, password) then Some(0)
    else match FindCredentials(admins[1..], username, password)
      case None => None
      case Some(k) => Some(k + 1)
  }

  /** `findUnique({ where: { id } })`: the position of the row with that id. */
  function IndexOfId(admins: seq<Admin>, id: nat): (r: Option<nat>)
    ensures r.Some? ==> r.value < |admins| && admins[r.value].id == id
    ensures r.Some? ==> forall j :: 0 <= j < r.value ==> admins[j].id != id
    ensures r.None? ==> forall i :: 0 <= i < |admins| ==> admins[i].id != id
  {
    if admins == [] then None
    else if admins[0].id == id then Some(0)
    else match IndexOfId(admins[1..], id)
      case None => None
      case Some(k) => Some(k + 1)
  }

  /** `db.adminUser.create`: a row with a fresh id and the latest creation time. */
  function Insert(t: Tables, username: string, password: string, name: string, role: string): (r: Tables)
    ensures |r.admins| == |t.admins| + 1 && r.admins[..|t.admins|] == t.admins
    ensures r.admins[|t.admins|] == Admin(t.nextId, username, password, name, role, t.clock)
    ensures r.audit == t.audit && r.config == t.config
    ensures WellFormed(t) && !UsernameTaken(t.admins, username) ==> WellFormed(r)
  {
    t.(admins := t.admins + [Admin(t.nextId, username, password, name, role, t.clock)],
       nextId := t.nextId + 1,
       clock := t.clock + 1)
  }

  /** `db.adminUser.delete`: the row at position `i` is gone, the others keep their order. */
  function RemoveAt(s: seq<Admin>, i: nat): (r: seq<Admin>)
    requires i < |s|
    ensures |r| == |s| - 1
    ensures forall k :: 0 <= k < i ==> r[k] == s[k]
    ensures forall k :: i <= k < |r| ==> r[k] == s[k + 1]
  {
    s[..i] + s[i + 1..]
  }

  lemma RemoveAtPreservesWellFormed(t: Tables, i: nat)
    requires i < |t.admins|
    ensures WellFormed(t) ==> WellFormed(t.(admins := RemoveAt(t.admins, i)))
  {
    if !WellFormed(t) { return; }
    var r := RemoveAt(t.admins, i);
    // position k of the shorter table is position k' of the original
    forall k, l | 0 <= k < |r| && 0 <= l < |r| && k != l
      ensures r[k].username != r[l].username && r[k].id != r[l].id
    {
      var k', l' := if k < i then k else k + 1, if l < i then l else l + 1;
      assert r[k] == t.admins[k'] && r[l] == t.admins[l'];
    }
    forall k, l | 0 <= k < l < |r|
      ensures r[k].createdAt < r[l].createdAt
    {
      var k', l' := if k < i then k else k + 1, if l < i then l else l + 1;
      assert r[k] == t.admins[k'] && r[l] == t.admins[l'];
    }
  }

  /** `count({ where: { role: 'Super Admin' } })`. */
  function SuperAdminCount(s: seq<Admin>): (c: nat)
    ensures c <= |s|
    ensures c == 0 <==> forall i :: 0 <= i < |s| ==> s[i].role != SuperAdminRole
    ensures c == |s| <==> forall i :: 0 <= i < |s| ==> s[i].role == SuperAdminRole
  {
    if s == [] then 0
    else
      var c := (if s[0].role == SuperAdminRole then 1 else 0) + SuperAdminCount(s[1..]);
      assert forall i :: 1 <= i < |s| ==> s[i] == s[1..][i - 1];
      c
  }

  /** Removing a row lowers the Super Admin count by one exactly when that row is a Super Admin. */
  lemma {:induction false} SuperAdminCountRemoveAt(s: seq<Admin>, i: nat)
    requires i < |s|
    ensures SuperAdminCount(RemoveAt(s, i)) + (if s[i].role == SuperAdminRole then 1 else 0) == SuperAdminCount(s)
  {
    if i == 0 {
      assert RemoveAt(s, 0) == s[1..];
    } else {
      var rest := RemoveAt(s[1..], i - 1);
      assert RemoveAt(s, i) == [s[0]] + rest;
      assert ([s[0]] + rest)[1..] == rest;
      SuperAdminCountRemoveAt(s[1..], i - 1);
    }
  }
}
