/**
 * The login lookup as the route writes it. The body's `username` and
 * `password` go straight into the ORM's `where` filter, and the ORM drops a
 * filter field whose value is `undefined`. A body that leaves a field out
 * therefore filters on the other field alone, and a body that leaves both out
 * matches the first row. `AdminRoute.LoginSpec` is the intended lookup, where
 * both credentials must match one row.
 */
module LoginFilter {
  import opened Options
  import opened Store
  import opened AdminRoute

  /** The row passes `where: { username, password }`; a None field is `undefined` and filters nothing. */
  predicate PassesFilter(a: Admin, username: Option<string>, password: Option<string>) {
    && (username.None? || a.username == username.value)
    && (password.None? || a.password == password.value)
  }

  /** `findFirst` with that filter: the first row that passes it. */
  function FindByFilter(admins: seq<Admin>, username: Option<string>, password: Option<string>): (r: Option<nat>)
    ensures r.Some? ==> r.value < |admins| && PassesFilter(admins[r.value], username, password)
    ensures r.Some? ==> forall j :: 0 <= j < r.value ==> !PassesFilter(admins[j], username, password)
    ensures r.None? ==> forall i :: 0 <= i < |admins| ==> !PassesFilter(admins[i], username, password)
  {
    if admins == [] then None
    else if PassesFilter(admins[0], username, password) then Some(0)
    else match FindByFilter(admins[1..], username, password)
      case None => None
      case Some(k) => Some(k + 1)
  }

  /** POST login as written, with the body's fields possibly absent. */
  function LoginAsWritten(t: Tables, username: Option<string>, password: Option<string>): (o: Outcome<Response>)
    ensures o.response.success <==> exists i :: 0 <= i < |t.admins| && PassesFilter(t.admins[i], username, password)
    ensures !o.response.success ==> o.response == Fail(401, WrongCredentialsMsg) && o.after == t
  {
    match FindByFilter(t.admins, username, password)
    case None => Outcome(Fail(401, WrongCredentialsMsg), t)
    case Some(i) => Outcome(Ok(t.admins[i]), t.(audit := t.audit + [LoginAudit(t.admins[i])]))
  }

  /** With both credentials given, the route does what the intended lookup does. */
  lemma {:induction false} FilterWithBothFields(admins: seq<Admin>, username: string, password: string)
    ensures FindByFilter(admins, Some(username), Some(password)) == FindCredentials(admins, username, password)
  {
    if admins != [] {
      FilterWithBothFields(admins[1..], username, password);
    }
  }

  lemma LoginAsWrittenWithBothFields(t: Tables, username: string, password: string)
    ensures LoginAsWritten(t, Some(username), Some(password)) == LoginSpec(t, username, password)
  {
    FilterWithBothFields(t.admins, username, password);
  }

  /**
   * A login body with neither field logs in, on any database, as the first
   * account; on a fresh database that is the seeded Super Admin.
   */
  lemma AbsentCredentialsLogIn(t: Tables)
    ensures var s := SeedSpec(t);
      LoginAsWritten(s, None, None).response == Ok(s.admins[0])
    ensures SeedSpec(EmptyTables).admins[0].role == SuperAdminRole
  {
  }

  /** A body that gives only the username logs in as that account whatever its password. */
  lemma UsernameAloneLogsIn(t: Tables, i: nat)
    requires i < |t.admins| && DistinctUsernames(t.admins)
    ensures LoginAsWritten(t, Some(t.admins[i].username), None).response == Ok(t.admins[i])
  {
    assert PassesFilter(t.admins[i], Some(t.admins[i].username), None);
  }

  /** The intended lookup refuses the seeded account to a body with empty credentials. */
  lemma ExactMatchRefusesEmptyCredentials()
    ensures !LoginSpec(SeedSpec(EmptyTables), "", "").response.success
  {
    var s := SeedSpec(EmptyTables);
    assert s.admins == [Admin(0, DefaultUsername, DefaultPassword, DefaultAdminName, SuperAdminRole, 0)];
    assert !HasCredentials(s.admins[0], "", "");
  }
}
