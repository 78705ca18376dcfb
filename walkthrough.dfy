/**
 * One session against a fresh database, run through the handler functions:
 * the seeded admin logs in, adds a staff account, cannot delete itself while it
 * is the only Super Admin, adds a second Super Admin, and then can.
 */
module Walkthrough {
  import opened Options
  import opened Store
  import opened AdminRoute

  const LoginBody := PostBody("login", "admin", "admin123", "", "", "", "")
  const StaffBody := PostBody("create", "staff1", "pw", "Staff User", "", SuperAdminRole, "")
  const SecondSuperBody := PostBody("create", "admin2", "pw2", "Second Super", SuperAdminRole, SuperAdminRole, "")
  const DeleteFirst := DeleteParams(Some(0), SuperAdminRole)

  /** The rows the session creates, in order. */
  const Seeded := Admin(0, DefaultUsername, DefaultPassword, DefaultAdminName, SuperAdminRole, 0)
  const Staff := Admin(1, "staff1", "pw", "Staff User", StaffRole, 1)
  const Second := Admin(2, "admin2", "pw2", "Second Super", SuperAdminRole, 2)

  const SeededTables := Tables([Seeded], [], map[ConfigKey := DefaultConfig], 1, 1)
  const LoggedIn := SeededTables.(audit := [LoginAudit(Seeded)])
  const WithStaff := Tables([Seeded, Staff], [LoginAudit(Seeded), CreateAudit(StaffBody)], LoggedIn.config, 2, 2)
  const WithSecond := Tables([Seeded, Staff, Second], WithStaff.audit + [CreateAudit(SecondSuperBody)], LoggedIn.config, 3, 3)

  lemma SeedFresh()
    ensures SeedSpec(EmptyTables) == SeededTables
  {
  }

  lemma SeededAdminLogsIn()
    ensures PostSpec(SeededTables, LoginBody) == Outcome(Ok(Seeded), LoggedIn)
  {
    assert SeedSpec(SeededTables) == SeededTables;
    assert HasCredentials(Seeded, "admin", "admin123");
    assert FindCredentials(SeededTables.admins, "admin", "admin123") == Some(0);
  }

  lemma StaffGetsDefaultRole()
    ensures PostSpec(LoggedIn, StaffBody) == Outcome(Ok(Staff), WithStaff)
  {
    assert SeedSpec(LoggedIn) == LoggedIn;
    assert "staff1" != "admin" by { assert "staff1"[0] != "admin"[0]; }
    assert !UsernameTaken(LoggedIn.admins, "staff1");
  }

  lemma LastSuperAdminKept()
    ensures DeleteSpec(WithStaff, DeleteFirst) == Outcome(Fail(400, LastSuperAdminMsg), WithStaff)
  {
    assert IndexOfId(WithStaff.admins, 0) == Some(0);
    assert StaffRole != SuperAdminRole by { assert |StaffRole| != |SuperAdminRole|; }
    assert WithStaff.admins[1..] == [Staff] && [Staff][1..] == [];
    assert SuperAdminCount([Staff]) == 0;
    assert SuperAdminCount(WithStaff.admins) == 1;
  }

  lemma SecondSuperAdminAdded()
    ensures PostSpec(WithStaff, SecondSuperBody) == Outcome(Ok(Second), WithSecond)
  {
    assert SeedSpec(WithStaff) == WithStaff;
    assert "admin2" != "admin" by { assert |"admin2"| != |"admin"|; }
    assert "admin2" != "staff1" by { assert "admin2"[0] != "staff1"[0]; }
    assert !UsernameTaken(WithStaff.admins, "admin2");
  }

  lemma FirstNowDeletable()
    ensures DeleteSpec(WithSecond, DeleteFirst) ==
      Outcome(Response(200, true, DeletedMsg, None), WithSecond.(admins := [Staff, Second]))
  {
    assert IndexOfId(WithSecond.admins, 0) == Some(0);
    assert StaffRole != SuperAdminRole by { assert |StaffRole| != |SuperAdminRole|; }
    assert WithSecond.admins[1..] == [Staff, Second] && [Staff, Second][1..] == [Second] && [Second][1..] == [];
    assert SuperAdminCount([Second]) == 1;
    assert SuperAdminCount([Staff, Second]) == 1;
    assert SuperAdminCount(WithSecond.admins) == 2;
    assert RemoveAt(WithSecond.admins, 0) == [Staff, Second];
  }

  /** The whole session, each step fed the store the previous one left. */
  lemma FreshDatabaseSession()
    ensures
      var seeded := SeedSpec(EmptyTables);
      var login := PostSpec(seeded, LoginBody);
      var staff := PostSpec(login.after, StaffBody);
      var refused := DeleteSpec(staff.after, DeleteFirst);
      var second := PostSpec(refused.after, SecondSuperBody);
      var removed := DeleteSpec(second.after, DeleteFirst);
      && seeded.admins == [Seeded] && seeded.admins[0].id == 0
      && login.response.success
      && staff.response.success && staff.response.data == Some(View(Staff)) && Staff.role == StaffRole
      && refused.response == Fail(400, LastSuperAdminMsg)
      && second.response.success
      && removed.response.success
      && removed.after.admins == [Staff, Second]
  {
    SeedFresh();
    SeededAdminLogsIn();
    StaffGetsDefaultRole();
    LastSuperAdminKept();
    SecondSuperAdminAdded();
    FirstNowDeletable();
  }

  /**
   * The guard protects deletion only: a PUT that changes the role of the only
   * Super Admin succeeds and leaves no Super Admin at all.
   */
  lemma DemotionNotGuarded()
    ensures
      var o := UpdateSpec(SeededTables, PutBody(Some(0), "", "", "", StaffRole, SuperAdminRole, ""));
      && SuperAdminCount(SeededTables.admins) == 1
      && o.response.success
      && SuperAdminCount(o.after.admins) == 0
  {
    assert IndexOfId(SeededTables.admins, 0) == Some(0);
    assert !UsernameTakenByOther(SeededTables.admins, "", 0);
    var o := UpdateSpec(SeededTables, PutBody(Some(0), "", "", "", StaffRole, SuperAdminRole, ""));
    assert o.after.admins == [Seeded.(role := StaffRole)];
    assert StaffRole != SuperAdminRole by { assert |StaffRole| != |SuperAdminRole|; }
  }
}
