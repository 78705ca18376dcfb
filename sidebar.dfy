/**
 * The sidebar's menu and footer: which entries a visitor sees, as the
 * browser-side mirror of the Super Admin role gate.
 */
module Sidebar {
  import opened Options
  import opened Store
  import opened AdminRoute

  /** A menu entry (its icon is rendering only). */
  datatype MenuItem = MenuItem(id: string, title: string)

  const DashboardItem := MenuItem("dashboard", "Dashboard Utama")
  const SuratItem := MenuItem("surat", "Layanan Mandiri")
  const WargaItem := MenuItem("warga", "Database Warga")
  const AdminItem := MenuItem("admin", "Kelola Admin")
  const AuditItem := MenuItem("audit", "Audit Log")

  /** The footer button: log out, or switch to the tab it names. */
  datatype FooterButton = LogOut | SelectTab(tab: string)

  function Ids(items: seq<MenuItem>): (ids: seq<string>)
    ensures |ids| == |items| && forall i :: 0 <= i < |items| ==> ids[i] == items[i].id
  {
    if items == [] then [] else [items[0].id] + Ids(items[1..])
  }

  /** The menu each kind of visitor sees, listed case by case. */
  function ExpectedMenu(isLoggedIn: bool, userRole: Option<string>): seq<MenuItem> {
    if !isLoggedIn then [DashboardItem, SuratItem]
    else if userRole == Some(SuperAdminRole) then [DashboardItem, WargaItem, SuratItem, AdminItem, AuditItem]
    else [DashboardItem, WargaItem, SuratItem]
  }

  /** The `menuItems` array: two entries, then `splice(1, 0, warga)` and `push(admin, audit)`. */
  method BuildMenu(isLoggedIn: bool, userRole: Option<string>) returns (items: seq<MenuItem>)
    ensures items == ExpectedMenu(isLoggedIn, userRole)
  {
    items := [DashboardItem, SuratItem];
    if isLoggedIn {
      items := items[..1] + [WargaItem] + items[1..];
      if userRole == Some(SuperAdminRole) {
        items := items + [AdminItem, AuditItem];
      }
    }
  }

  /** Admin management and the audit log are offered exactly to a logged-in Super Admin. */
  lemma MenuMirrorsRoleGate(isLoggedIn: bool, userRole: Option<string>)
    ensures "admin" in Ids(ExpectedMenu(isLoggedIn, userRole)) <==>
      isLoggedIn && userRole.Some? && MayManageAdmins(userRole.value)
    ensures "audit" in Ids(ExpectedMenu(isLoggedIn, userRole)) <==>
      isLoggedIn && userRole.Some? && MayManageAdmins(userRole.value)
    ensures "warga" in Ids(ExpectedMenu(isLoggedIn, userRole)) <==> isLoggedIn
  {
    var ids := Ids(ExpectedMenu(isLoggedIn, userRole));
    if !isLoggedIn {
      assert ids == ["dashboard", "surat"];
    } else if userRole == Some(SuperAdminRole) {
      assert ids == ["dashboard", "warga", "surat", "admin", "audit"];
    } else {
      assert ids == ["dashboard", "warga", "surat"];
    }
  }

  /** The five ids are pairwise different strings. */
  lemma IdsDiffer()
    ensures "dashboard" != "warga" && "dashboard" != "surat" && "dashboard" != "admin" && "dashboard" != "audit"
    ensures "warga" != "surat" && "warga" != "admin" && "warga" != "audit"
    ensures "surat" != "admin" && "surat" != "audit" && "admin" != "audit"
  {
    assert "dashboard"[0] == 'd' && "warga"[0] == 'w' && "surat"[0] == 's' && "admin"[0] == 'a' && "audit"[0] == 'a';
    assert "admin"[1] == 'd' && "audit"[1] == 'u';
  }

  /** The dashboard always comes first, the service page is always there, and no id appears twice. */
  lemma MenuWellOrdered(isLoggedIn: bool, userRole: Option<string>)
    ensures var ids := Ids(ExpectedMenu(isLoggedIn, userRole));
      && |ids| >= 2 && ids[0] == "dashboard" && "surat" in ids
      && forall i, j :: 0 <= i < j < |ids| ==> ids[i] != ids[j]
  {
    var ids := Ids(ExpectedMenu(isLoggedIn, userRole));
    IdsDiffer();
    if !isLoggedIn {
      assert ids == ["dashboard", "surat"];
    } else if userRole == Some(SuperAdminRole) {
      assert ids == ["dashboard", "warga", "surat", "admin", "audit"];
    } else {
      assert ids == ["dashboard", "warga", "surat"];
    }
  }

  /** The footer offers log-out exactly when logged in, and otherwise opens the login tab. */
  function Footer(isLoggedIn: bool): (b: FooterButton)
    ensures b.LogOut? <==> isLoggedIn
    ensures !isLoggedIn ==> b == SelectTab("login")
  {
    if isLoggedIn then LogOut else SelectTab("login")
  }
}
