/**
 * The behaviour of `GET /api/init`: look for any admin; if there is none (or
 * the lookup failed) create the default one and then, best effort, the default
 * configuration.
 */
module InitRoute {
  import opened Options
  import opened Store

  const InitUsername := "admin"
  const InitPassword := "admin123"
  const InitAdminName := "Pak RT"
  const InitConfig := RtConfig("Pak RT", "628123456789", "rt@smartwarga.id", "SmartWarga RT", "")

  const AlreadyInitializedMsg := "Database sudah terinisialisasi"
  const InitializedMsg := "Database berhasil diinisialisasi! Login dengan admin/admin123"
  const RetryHint := "Jika error tentang tabel tidak ada, pastikan database sudah di-migrate di build time."
  /** Stands for the database's own message when the unique index on `username` rejects the row. */
  const UniqueViolationMsg := "Unique constraint failed on the fields: (`username`)"

  /** The account the response names. */
  datatype InitAdmin = InitAdmin(username: string, name: string)

  datatype InitResponse = InitResponse(
    status: int, success: bool, message: string, admin: Option<InitAdmin>, error: string, hint: string)

  datatype InitOutcome = InitOutcome(response: InitResponse, after: Tables)

  /** The inputs the database decides: whether `findFirst` throws, and whether each create throws. */
  datatype Faults = Faults(lookupFails: bool, adminCreateError: Option<string>, configCreateFails: bool)

  function Failure(message: string): InitResponse {
    InitResponse(500, false, "", None, message, RetryHint)
  }

  /** `findFirst()` on the admin table, or nothing when the lookup threw. */
  function ExistingAdmin(t: Tables, f: Faults): (r: Option<Admin>)
    ensures r.Some? <==> !f.lookupFails && |t.admins| > 0
    ensures r.Some? ==> r.value == t.admins[0]
  {
    if f.lookupFails || t.admins == [] then None else Some(t.admins[0])
  }

  /** Writes the default configuration unless the create fails (a duplicate id or a store fault). */
  function TryCreateConfig(t: Tables, f: Faults): (r: Tables)
    ensures r.admins == t.admins && r.audit == t.audit && r.nextId == t.nextId && r.clock == t.clock
    ensures ConfigKey in t.config || f.configCreateFails ==> r == t
    ensures ConfigKey !in t.config && !f.configCreateFails ==> r.config == t.config[ConfigKey := InitConfig]
  {
    if f.configCreateFails || ConfigKey in t.config then t
    else t.(config := t.config[ConfigKey := InitConfig])
  }

  function InitSpec(t: Tables, f: Faults): (o: InitOutcome)
    // an admin was found: report it and write nothing, even when the configuration is missing
    ensures ExistingAdmin(t, f).Some? ==>
      o == InitOutcome(InitResponse(200, true, AlreadyInitializedMsg,
                                    Some(InitAdmin(t.admins[0].username, t.admins[0].name)), "", ""), t)
    // none was found: the outcome hangs on the admin create alone, never on the configuration
    ensures ExistingAdmin(t, f).None? ==>
      (o.response.success <==> f.adminCreateError.None? && !UsernameTaken(t.admins, InitUsername))
    ensures !o.response.success ==> o.response.status == 500 && o.response.hint == RetryHint && o.after == t
    ensures f.adminCreateError.Some? && !o.response.success ==> o.response.error == f.adminCreateError.value
    ensures ExistingAdmin(t, f).None? && o.response.success ==>
      && o.response == InitResponse(200, true, InitializedMsg, Some(InitAdmin(InitUsername, InitAdminName)), "", "")
      && |o.after.admins| == |t.admins| + 1 && o.after.admins[..|t.admins|] == t.admins
      && o.after.admins[|t.admins|].username == InitUsername
      && o.after.admins[|t.admins|].password == InitPassword
      && o.after.admins[|t.admins|].name == InitAdminName
      && o.after.admins[|t.admins|].role == SuperAdminRole
      && o.after.audit == t.audit
      && o.after.config == TryCreateConfig(t, f).config
      && (ConfigKey in t.config ==> o.after.config == t.config)
      && (ConfigKey !in t.config && !f.configCreateFails ==> o.after.config == t.config[ConfigKey := InitConfig])
    ensures o.response.success ==> |o.after.admins| >= 1
    ensures WellFormed(t) ==> WellFormed(o.after)
  {
    match ExistingAdmin(t, f)
    case Some(a) =>
      InitOutcome(InitResponse(200, true, AlreadyInitializedMsg, Some(InitAdmin(a.username, a.name)), "", ""), t)
    case None =>
      if f.adminCreateError.Some? then InitOutcome(Failure(f.adminCreateError.value), t)
      else if UsernameTaken(t.admins, InitUsername) then InitOutcome(Failure(UniqueViolationMsg), t)
      else
        var t1 := Insert(t, InitUsername, InitPassword, InitAdminName, SuperAdminRole);
        var t2 := TryCreateConfig(t1, f);
        InitOutcome(InitResponse(200, true, InitializedMsg, Some(InitAdmin(InitUsername, InitAdminName)), "", ""), t2)
  }

  /** After one successful call, a second call whose lookup succeeds writes nothing. */
  lemma InitIdempotent(t: Tables, f: Faults, g: Faults)
    requires InitSpec(t, f).response.success && !g.lookupFails
    ensures InitSpec(InitSpec(t, f).after, g).after == InitSpec(t, f).after
  {
  }
}
