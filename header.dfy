/**
 * The site header: it restores the session from storage, opens the login
 * modal, and offers the guest's account page and logout.
 */
module Header {
  import opened Text
  import opened Wrappers
  import opened Browser
  import LoginModal
  import opened App

  /** The raw 'user' entry can be read: present, not empty and not the text "undefined". */
  predicate Readable(raw: Option<string>) {
    raw.Some? && raw.value != "" && raw.value != "undefined"
  }

  /** `irADashboard`: only guests and administrators have a page to go to. */
  function IrADashboard(u: StoredUser): (to: Option<string>)
    ensures to == Some("/dashboard") <==> u.Truthy? && u.role == "cliente"
    ensures to == Some("/admin/dashboard") <==> u.Truthy? && u.role == "administrador"
    ensures to.None? <==> !(u.Truthy? && u.role in {"cliente", "administrador"})
  {
    if u.Truthy? && u.role == "cliente" then Some("/dashboard")
    else if u.Truthy? && u.role == "administrador" then Some("/admin/dashboard")
    else None
  }

  /** Where a destination exists, it is the one the login modal sends that role to; receptionists have none here. */
  lemma IrADashboardAgreesWithLogin(u: StoredUser)
    requires u.Truthy?
    ensures IrADashboard(u).Some? ==> IrADashboard(u).value == LoginModal.RedirectForRole(u.role)
    ensures u.role == "recepcionista" ==> IrADashboard(u).None?
  {
  }

  /** The "Mi Cuenta" button: only for a guest. */
  predicate ShowsMiCuenta(u: StoredUser) {
    u.Truthy? && u.role == "cliente"
  }

  /** The button always leads somewhere: the guest's dashboard. */
  lemma MiCuentaLeadsToDashboard(u: StoredUser)
    requires ShowsMiCuenta(u)
    ensures IrADashboard(u) == Some("/dashboard")
  {
  }

  class SiteHeader {
    /** the logged-in user; `Falsy` stands for `null` */
    var user: StoredUser
    var modalIsOpen: bool

    constructor ()
      ensures user == Falsy && !modalIsOpen
    {
      user := Falsy;
      modalIsOpen := false;
    }

    /**
     * The mount effect. A 'user' entry holding "" or "undefined" is removed,
     * and so is one that does not parse (leaving no user). A user is restored
     * only when a token is present and the entry parses to a truthy value.
     */
    method RestoreSession(storage: Storage, parse: string -> StoredUser)
      modifies this`user, storage
      ensures var raw := if "user" in old(storage.items) then Some(old(storage.items)["user"]) else None;
        var removes := (raw.Some? && raw.value in {"", "undefined"}) || (Readable(raw) && parse(raw.value).Unparsable?);
        (removes ==> storage.items == old(storage.items) - {"user"})
        && (!removes ==> storage.items == old(storage.items))
      ensures var raw := if "user" in old(storage.items) then Some(old(storage.items)["user"]) else None;
        var token := if "token" in old(storage.items) then old(storage.items)["token"] else "";
        (Readable(raw) && parse(raw.value).Unparsable? ==> user == Falsy)
        && (Readable(raw) && parse(raw.value).Truthy? && token != "" ==> user == parse(raw.value))
        && (!(Readable(raw) && (parse(raw.value).Unparsable? || (parse(raw.value).Truthy? && token != ""))) ==> user == old(user))
    {
      var token := storage.GetItem("token");
      var raw := storage.GetItem("user");
      if raw == Some("undefined") || raw == Some("") {
        storage.RemoveItem("user");
      }
      var userData := if Readable(raw) then parse(raw.value) else Falsy;
      if userData.Unparsable? {
        storage.RemoveItem("user");
        user := Falsy;
      } else if token.Some? && token.value != "" && userData.Truthy? {
        user := userData;
      }
    }

    /**
     * `handleLoginSuccess`: the user is set, the modal closes, and only a
     * guest is redirected. Given no user (a login answer without `user`),
     * reading its `role` throws (`threw`) after the first two steps.
     */
    method HandleLoginSuccess(userData: StoredUser) returns (redirect: Option<string>, threw: bool)
      requires !userData.Unparsable?
      modifies this
      ensures user == userData && !modalIsOpen
      ensures threw <==> userData.Falsy?
      ensures redirect.Some? <==> userData.Truthy? && userData.role == "cliente"
      ensures redirect.Some? ==> redirect.value == "/dashboard"
    {
      user := userData;
      modalIsOpen := false;
      if userData.Falsy? {
        return None, true;
      }
      redirect := if userData.role == "cliente" then Some("/dashboard") else None;
      threw := false;
    }

    /** `handleLogout`: 'token' and 'user' are removed and the user cleared, then "/". */
    method HandleLogout(storage: Storage) returns (navigateTo: string)
      modifies this`user, storage
      ensures storage.items == old(storage.items) - {"token", "user"}
      ensures user == Falsy && navigateTo == "/"
    {
      storage.RemoveItem("token");
      storage.RemoveItem("user");
      user := Falsy;
      navigateTo := "/";
    }
  }
}
