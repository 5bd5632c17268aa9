/**
 * The frame around the administrator's pages: a collapsible sidebar with
 * the menu, a header titled after the active section, and logout.
 */
module AdminLayout {
  import opened Text
  import opened Wrappers
  import opened Browser

  datatype MenuItem = MenuItem(id: string, caption: string, path: string)

  const MenuItems: seq<MenuItem> := [
    MenuItem("dashboard", "Dashboard", "/admin/dashboard"),
    MenuItem("habitaciones", "Habitaciones", "/admin/habitaciones"),
    MenuItem("actividades", "Actividades", "/admin/actividades"),
    MenuItem("usuarios", "Usuarios", "/admin/usuarios"),
    MenuItem("consultas", "Consultas", "/admin/consultas"),
    MenuItem("reportes", "Reportes", "/admin/reportes"),
    MenuItem("perfil-hotel", "Perfil Hotel", "/admin/perfil-hotel")]

  /** `items.find(item => path.includes(item.id))`, as a position. */
  function FindByPath(items: seq<MenuItem>, path: string): (r: Option<nat>)
    ensures r.Some? ==> r.value < |items| && Contains(path, items[r.value].id)
    ensures r.Some? ==> forall j :: 0 <= j < r.value ==> !Contains(path, items[j].id)
    ensures r.None? ==> forall j :: 0 <= j < |items| ==> !Contains(path, items[j].id)
  {
    if items == [] then None
    else if Contains(path, items[0].id) then Some(0)
    else match FindByPath(items[1..], path)
      case None => None
      case Some(k) => Some(k + 1)
  }

  /**
   * `getActiveSection`: the id of the first menu item, in menu order, whose
   * id occurs in the path; "dashboard" when none does.
   */
  function GetActiveSection(path: string): (id: string)
    ensures exists i :: 0 <= i < |MenuItems| && MenuItems[i].id == id
    ensures (forall j :: 0 <= j < |MenuItems| ==> !Contains(path, MenuItems[j].id)) ==> id == "dashboard"
    ensures id != "dashboard" ==> Contains(path, id)
  {
    match FindByPath(MenuItems, path)
    case Some(i) => MenuItems[i].id
    case None => assert MenuItems[0].id == "dashboard"; "dashboard"
  }

  /** The dashboard item comes first, so any path mentioning it selects it. */
  lemma DashboardComesFirst(path: string)
    requires Contains(path, "dashboard")
    ensures GetActiveSection(path) == "dashboard"
    ensures SectionTitle(path) == "Dashboard"
  {
    assert MenuItems[0].id == "dashboard";
  }

  /** A path that mentions no menu id shows the dashboard's title. */
  lemma UnknownPathShowsDashboard(path: string)
    requires forall j :: 0 <= j < |MenuItems| ==> !Contains(path, MenuItems[j].id)
    ensures GetActiveSection(path) == "dashboard" && SectionTitle(path) == "Dashboard"
  {
  }

  /** `items.find(item => item.id === id)?.label` */
  function CaptionOf(items: seq<MenuItem>, id: string): (c: Option<string>)
    ensures c.Some? <==> exists i :: 0 <= i < |items| && items[i].id == id
    ensures c.Some? ==> exists i :: 0 <= i < |items| && items[i].id == id && items[i].caption == c.value
  {
    if items == [] then None
    else if items[0].id == id then Some(items[0].caption)
    else
      var c := CaptionOf(items[1..], id);
      assert forall i :: 1 <= i < |items| ==> items[i] == items[1..][i - 1];
      c
  }

  /** The header's title: the active item's label, "Dashboard" when it has none. */
  function SectionTitle(path: string): (title: string)
    ensures exists i :: 0 <= i < |MenuItems| && MenuItems[i].id == GetActiveSection(path) && MenuItems[i].caption == title
  {
    var id := GetActiveSection(path);
    var c := CaptionOf(MenuItems, id);
    assert forall i :: 0 <= i < |MenuItems| ==> MenuItems[i].caption != "";
    OrElse(c.GetOr(""), "Dashboard")
  }

  class Shell {
    var sidebarOpen: bool

    constructor ()
      ensures sidebarOpen
    {
      sidebarOpen := true;
    }

    method ToggleSidebar()
      modifies this
      ensures sidebarOpen == !old(sidebarOpen)
    {
      sidebarOpen := !sidebarOpen;
    }

    /** `handleNavigation`: goes to the path; on narrow windows the sidebar closes. */
    method HandleNavigation(path: string, innerWidth: int) returns (navigateTo: string)
      modifies this
      ensures navigateTo == path
      ensures innerWidth <= 768 ==> !sidebarOpen
      ensures innerWidth > 768 ==> sidebarOpen == old(sidebarOpen)
    {
      navigateTo := path;
      if innerWidth <= 768 {
        sidebarOpen := false;
      }
    }

    /** `handleLogout`: 'user' and 'token' are removed, then the login page. */
    method HandleLogout(storage: Storage) returns (navigateTo: string)
      modifies storage
      ensures storage.items == old(storage.items) - {"user", "token"}
      ensures navigateTo == "/login"
    {
      storage.RemoveItem("user");
      storage.RemoveItem("token");
      navigateTo := "/login";
    }
  }
}
