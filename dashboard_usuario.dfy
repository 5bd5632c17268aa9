/**
 * The guest's dashboard: it requires a stored user, lists the guest's
 * reservations and lets them cancel or log out.
 */
module DashboardUsuario {
  import opened Text
  import opened Wrappers
  import opened Backend
  import opened Browser
  import MisReservas

  type Reserva = MisReservas.Reserva

  const KnownStates: set<string> := {"confirmada", "pendiente", "cancelada", "completada"}

  /** `getEstadoBadge`: the badge text; an unknown state shows its own raw text. */
  function BadgeText(estado: string): (t: string)
    ensures estado in KnownStates ==> |t| == |estado| && forall i :: 0 <= i < |t| ==> 'A' <= t[i] <= 'Z'
    ensures estado !in KnownStates ==> t == estado
  {
    match estado
    case "confirmada" => "CONFIRMADA"
    case "pendiente" => "PENDIENTE"
    case "cancelada" => "CANCELADA"
    case "completada" => "COMPLETADA"
    case _ => estado
  }

  /** `getEstadoBadge`: the badge colour; grey exactly for unknown states. */
  function BadgeColor(estado: string): (c: string)
    ensures c == "#666" <==> estado !in KnownStates
  {
    match estado
    case "confirmada" => "#2e7d32"
    case "pendiente" => "#ff9800"
    case "cancelada" => "#d32f2f"
    case "completada" => "#1976d2"
    case _ => "#666"
  }

  /** The fixed labels are the states written in capitals, letter by letter. */
  lemma KnownLabelsAreCapitals(estado: string)
    requires estado in KnownStates
    ensures forall i :: 0 <= i < |estado| ==> LowerChar(BadgeText(estado)[i]) == estado[i]
  {
  }

  /** "Tienes N reserva(s) activa(s)": plural only above one. */
  function Plural(n: int): (s: string)
    ensures s == "s" <==> n > 1
    ensures s == "" <==> n <= 1
  {
    if n > 1 then "s" else ""
  }

  /**
   * This heading uses `> 1` where "Mis Reservas" uses `!== 1`; the two
   * agree on every count the heading is shown for (at least one).
   */
  lemma PluralAgreesWithMisReservas(n: int)
    requires n >= 1
    ensures Plural(n) == MisReservas.Plural(n)
  {
  }

  class UserDashboard {
    /** the stored user once read, `None` while `null` */
    var user: Option<string>
    var reservas: seq<Reserva>
    var loading: bool

    constructor ()
      ensures user == None && reservas == [] && loading
    {
      user := None;
      reservas := [];
      loading := true;
    }

    /**
     * The mount effect. `userData` is the parsed 'user' entry, `None` when it
     * is missing or parses to a falsy value: then the guest is sent to "/"
     * and no reservations are requested.
     */
    method Mount(userData: Option<string>) returns (navigateTo: Option<string>, loadRequested: bool)
      modifies this`user
      ensures userData.None? ==> navigateTo == Some("/") && !loadRequested && user == old(user)
      ensures userData.Some? ==> navigateTo == None && loadRequested && user == userData
    {
      if userData.None? {
        return Some("/"), false;
      }
      user := userData;
      navigateTo, loadRequested := None, true;
    }

    /** `cargarReservas`: the list is replaced only by an ok answer with success. */
    method CargarReservas(reply: Reply<seq<Reserva>>)
      modifies this`reservas, this`loading
      ensures !loading
      ensures reply.Succeeded() ==> reservas == reply.data
      ensures !reply.Succeeded() ==> reservas == old(reservas)
    {
      if reply.Succeeded() {
        reservas := reply.data;
      }
      loading := false;
    }

    /**
     * `cancelarReserva`. After the guest confirms, the request is sent; the
     * list is reloaded when the answer's `success` is true, whatever its
     * HTTP status (this handler does not look at `response.ok`).
     */
    method CancelarReserva(confirmed: bool, reply: Reply<bool>) returns (sent: bool, reload: bool)
      ensures sent <==> confirmed
      ensures reload <==> confirmed && reply.Answered? && reply.success
    {
      sent := confirmed;
      reload := confirmed && reply.Answered? && reply.success;
    }

    /** `handleCerrarSesion`: both 'user' and 'token' are removed, then "/". */
    method HandleCerrarSesion(storage: Storage) returns (navigateTo: string)
      modifies storage
      ensures storage.items == old(storage.items) - {"user", "token"}
      ensures navigateTo == "/"
    {
      storage.RemoveItem("user");
      storage.RemoveItem("token");
      navigateTo := "/";
    }
  }
}
