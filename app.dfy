/**
 * The route table and the role gate in front of the protected pages.
 * Paths are matched exactly (no trailing-slash or case folding).
 */
module App {
  import opened Text
  import opened Wrappers
  import LoginModal

  /**
   * What `JSON.parse` makes of the stored `user` text: it throws, it gives a
   * falsy value (`null`, `false`, `0`, `""`), or a truthy value whose `role`
   * and `tipo` are read ("" when absent).
   */
  datatype StoredUser = Unparsable | Falsy | Truthy(role: string, tipo: string)

  /** The three roles the gate knows. */
  const Roles: set<string> := {"administrador", "cliente", "recepcionista"}

  /**
   * `JSON.parse(localStorage.getItem('user') || 'null')`, with the parser
   * given as `parse`: an absent or empty entry is read as `null`.
   */
  function ReadStoredUser(stored: Option<string>, parse: string -> StoredUser): (u: StoredUser)
    requires parse("null") == Falsy
    ensures stored.None? || stored == Some("") ==> u == Falsy
    ensures stored.Some? && stored.value != "" ==> u == parse(stored.value)
  {
    parse(OrElse(stored.GetOr(""), "null"))
  }

  /** `user.role || user.tipo` */
  function EffectiveRole(role: string, tipo: string): (r: string)
    ensures role != "" ==> r == role
    ensures role == "" ==> r == tipo
  {
    OrElse(role, tipo)
  }

  /** What `ProtectedRoute` renders: its children, a redirect, or nothing because parsing threw. */
  datatype Gate = Children | RedirectTo(path: string) | ParseError

  /** `ProtectedRoute({ children, role })` for the stored user `u`. */
  function ProtectedRoute(required: string, u: StoredUser): (g: Gate)
    ensures u.Unparsable? <==> g == ParseError
    ensures u.Falsy? ==> g == RedirectTo("/")
    ensures u.Truthy? && required in Roles ==>
      (g == Children <==> EffectiveRole(u.role, u.tipo) == required)
    ensures u.Truthy? && required !in Roles ==> g == Children
    ensures g != Children && g != ParseError ==> g == RedirectTo("/")
  {
    match u
    case Unparsable => ParseError
    case Falsy => RedirectTo("/")
    case Truthy(role, tipo) =>
      var userRole := EffectiveRole(role, tipo);
      if required == "administrador" && userRole != "administrador" then RedirectTo("/")
      else if required == "cliente" && userRole != "cliente" then RedirectTo("/")
      else if required == "recepcionista" && userRole != "recepcionista" then RedirectTo("/")
      else Children
  }

  /** The element a route renders. */
  datatype Element =
    | Page(name: string)
    | Protected(role: string, inner: Element)
    | Navigate(to: string)

  /** The pages nested under the /admin route. */
  const AdminPages: map<string, string> := map[
    "dashboard" := "Dashboard", "habitaciones" := "Habitaciones", "usuarios" := "Usuarios",
    "perfil-hotel" := "PerfilHotel", "consultas" := "Consultas", "reportes" := "Reportes",
    "actividades" := "Actividades", "reservaciones" := "Reservaciones", "clientes" := "Clientes"]

  /** What `<Outlet/>` shows inside the admin layout for the rest of the path. */
  function AdminChild(rest: string): Element {
    if rest == "" || rest == "/" then Navigate("/admin/dashboard")
    else if rest[0] == '/' && rest[1..] in AdminPages then Page(AdminPages[rest[1..]])
    else Page("AdminLayout")
  }

  /** The `<Routes>` table: the element for an exact path. */
  function Route(path: string): Element {
    if path == "/" then Page("HomeUsuario")
    else if path == "/habitaciones-disponibles" then Page("HabitacionesDisponibles")
    else if path == "/mis-reservas" then Protected("cliente", Page("MisReservas"))
    else if path == "/confirmacion-reserva" then Protected("cliente", Page("ConfirmacionReserva"))
    else if path == "/dashboard" then Protected("cliente", Page("DashboardUsuario"))
    else if AdminBranch(path) then
      Protected("administrador", AdminChild(path[6..]))
    else if path == "/operator/dashboard" then Protected("recepcionista", Page("DashboardOperator"))
    else Navigate("/")
  }

  /** The role a path's gate demands, if it has one. */
  function RequiredRole(e: Element): Option<string> {
    if e.Protected? then Some(e.role) else None
  }

  predicate IsAdminPath(path: string) {
    path == "/admin" || StartsWith(path, "/admin/")
  }

  /** The test the route table makes for the /admin tree. */
  predicate AdminBranch(path: string) {
    StartsWith(path, "/admin") && (path == "/admin" || path[6] == '/')
  }

  /** The route table's test picks out exactly /admin and the paths below it. */
  lemma AdminBranchIff(path: string)
    ensures AdminBranch(path) <==> IsAdminPath(path)
  {
    if StartsWith(path, "/admin") && |path| > 6 {
      assert path[..7] == path[..6] + [path[6]];
    }
  }

  /**
   * Guard assignment: administrador for everything under /admin,
   * recepcionista for the operator dashboard, cliente for the three client
   * pages, and no guard elsewhere.
   */
  lemma GuardAssignment(path: string)
    ensures RequiredRole(Route(path)) == Some("administrador") <==> IsAdminPath(path)
    ensures RequiredRole(Route(path)) == Some("recepcionista") <==> path == "/operator/dashboard"
    ensures RequiredRole(Route(path)) == Some("cliente") <==>
      path in {"/mis-reservas", "/confirmacion-reserva", "/dashboard"}
    ensures RequiredRole(Route(path)).None? <==>
      !IsAdminPath(path) && path !in {"/operator/dashboard", "/mis-reservas", "/confirmacion-reserva", "/dashboard"}
  {
    AdminBranchIff(path);
    if IsAdminPath(path) {
      assert path[..6][1] == 'a';
      assert path !in {"/", "/habitaciones-disponibles", "/operator/dashboard", "/mis-reservas", "/confirmacion-reserva", "/dashboard"};
    }
  }

  /** Any path outside the table sends the browser to "/", and /admin opens its dashboard. */
  lemma FallbackRoutes(path: string)
    requires !IsAdminPath(path)
    requires path !in {"/", "/habitaciones-disponibles", "/mis-reservas", "/confirmacion-reserva",
                       "/dashboard", "/operator/dashboard"}
    ensures Route(path) == Navigate("/")
    ensures Route("/admin") == Protected("administrador", Navigate("/admin/dashboard"))
  {
    AdminBranchIff(path);
  }

  /** What the browser ends up showing for an element. */
  datatype Outcome = Shows(page: string) | Redirected(to: string) | Crashed

  function Render(e: Element, u: StoredUser): Outcome {
    match e
    case Page(name) => Shows(name)
    case Navigate(to) => Redirected(to)
    case Protected(role, inner) =>
      (match ProtectedRoute(role, u)
       case Children => Render(inner, u)
       case RedirectTo(p) => Redirected(p)
       case ParseError => Crashed)
  }

  /** With no stored user every guarded path redirects to "/". */
  lemma NoUserRedirects(path: string, parse: string -> StoredUser)
    requires parse("null") == Falsy
    requires RequiredRole(Route(path)).Some?
    ensures Render(Route(path), ReadStoredUser(None, parse)) == Redirected("/")
  {
  }

  /**
   * The login modal and the gate agree: the page a user of a known role is
   * sent to after login is one the gate lets that user see.
   */
  lemma {:induction false} LoginRedirectIsAdmitted(role: string, tipo: string)
    ensures Render(Route(LoginModal.RedirectForRole(role)), Truthy(role, tipo)).Shows?
  {
    var u := Truthy(role, tipo);
    var path := LoginModal.RedirectForRole(role);
    if role == "administrador" {
      AdminDashboardRoute();
      assert ProtectedRoute("administrador", u) == Children;
    } else if role == "recepcionista" {
      OperatorDashboardRoute();
      assert ProtectedRoute("recepcionista", u) == Children;
    } else if role == "cliente" {
      assert Route(path) == Protected("cliente", Page("DashboardUsuario"));
      assert ProtectedRoute("cliente", u) == Children;
    } else {
      assert path == "/";
    }
  }

  /** The administrator's landing page is the dashboard inside the admin gate. */
  lemma AdminDashboardRoute()
    ensures Route("/admin/dashboard") == Protected("administrador", Page("Dashboard"))
  {
    var path := "/admin/dashboard";
    assert path[..6] == "/admin" && path[6] == '/';
    assert AdminBranch(path);
    assert path[6..] == "/dashboard" && path[6..][1..] == "dashboard";
  }

  /** The receptionist's landing page is behind the recepcionista gate. */
  lemma OperatorDashboardRoute()
    ensures Route("/operator/dashboard") == Protected("recepcionista", Page("DashboardOperator"))
  {
    var path := "/operator/dashboard";
    assert path[..6][1] == 'o' != "/admin"[1];
    assert !AdminBranch(path);
  }
}
