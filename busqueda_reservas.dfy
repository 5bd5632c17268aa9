/**
 * The availability search on the home page: two dates and the guest
 * counts; a search with results moves on to the list of available rooms.
 */
module BusquedaReservas {
  import opened Text
  import opened Wrappers
  import opened Backend

  const MsgDatesRequired := "Por favor selecciona las fechas de entrada y salida."
  const MsgDatesOrder := "La fecha de salida debe ser posterior a la de entrada."
  const MsgNoRooms := "No hay habitaciones disponibles para las fechas seleccionadas."
  const MsgNoConnection := "Error al conectar con el servidor."

  /** `parseInt(value) || 1`: NaN and 0 both become one adult. */
  function ParseAdultos(value: string): (n: int)
    ensures n != 0
    ensures ParseInt(value).None? || ParseInt(value) == Some(0) ==> n == 1
    ensures ParseInt(value).Some? && ParseInt(value).value != 0 ==> n == ParseInt(value).value
  {
    match ParseInt(value)
    case None => 1
    case Some(v) => if v == 0 then 1 else v
  }

  /** `parseInt(value) || 0`: NaN becomes no children. */
  function ParseNinos(value: string): (n: int)
    ensures ParseInt(value).None? ==> n == 0
    ensures ParseInt(value).Some? ==> n == ParseInt(value).value
  {
    ParseInt(value).GetOr(0)
  }

  /** A count shown in the field is read back unchanged, except that zero adults become one. */
  lemma GuestCountsRoundTrip(n: int)
    ensures ParseNinos(ShowInt(n)) == n
    ensures ParseAdultos(ShowInt(n)) == if n == 0 then 1 else n
  {
    ParseIntShowInt(n);
  }

  /** What the results page receives. */
  datatype Navigation<R> = Navigation(path: string, habitaciones: seq<R>,
                                      entrada: string, salida: string, adultos: int, ninos: int)

  class SearchForm {
    /** the date inputs, "" until chosen */
    var entrada: string
    var salida: string
    var adultos: int
    var ninos: int
    var error: string
    var loading: bool

    constructor ()
      ensures entrada == "" && salida == "" && adultos == 1 && ninos == 0 && error == "" && !loading
    {
      entrada, salida := "", "";
      adultos, ninos := 1, 0;
      error := "";
      loading := false;
    }

    /** The adults input's `onChange`. */
    method SetAdultos(value: string)
      modifies this`adultos
      ensures adultos == ParseAdultos(value) && adultos != 0
    {
      adultos := ParseAdultos(value);
    }

    /** The children input's `onChange`. */
    method SetNinos(value: string)
      modifies this`ninos
      ensures ninos == ParseNinos(value)
    {
      ninos := ParseNinos(value);
    }

    /**
     * `handleBuscar`. `entradaMs` and `salidaMs` are the instants the two
     * date strings denote. Both dates must be chosen and check-out must be
     * strictly later (a same-day stay is refused); only then is the error
     * cleared and the search sent. The reply's payload is the array of rooms.
     * A non-empty array navigates with the search data unchanged; an empty
     * one, a non-ok status or a failed request leave an error instead.
     */
    method HandleBuscar<R>(entradaMs: int, salidaMs: int, reply: Reply<seq<R>>)
      returns (sent: bool, nav: Option<Navigation<R>>)
      modifies this`error, this`loading
      ensures sent <==> entrada != "" && salida != "" && salidaMs > entradaMs
      ensures (entrada == "" || salida == "") ==> error == MsgDatesRequired
      ensures entrada != "" && salida != "" && salidaMs <= entradaMs ==> error == MsgDatesOrder
      ensures !sent ==> nav == None && loading == old(loading)
      ensures sent ==> !loading
      ensures nav.Some? <==> sent && reply.Answered? && reply.ok && |reply.data| > 0
      ensures nav.Some? ==> error == "" && nav.value == Navigation("/habitaciones-disponibles", reply.data, entrada, salida, adultos, ninos)
      ensures sent && reply.Answered? && reply.ok && |reply.data| == 0 ==> error == MsgNoRooms
      ensures sent && reply.Answered? && !reply.ok ==> error == OrElse(reply.error, "Error " + ShowInt(reply.status))
      ensures sent && reply.Thrown? ==> error == OrElse(reply.message, MsgNoConnection)
    {
      nav := None;
      if entrada == "" || salida == "" {
        error := MsgDatesRequired;
        return false, None;
      }
      if salidaMs <= entradaMs {
        error := MsgDatesOrder;
        return false, None;
      }
      sent := true;
      error := "";
      loading := true;
      if reply.Thrown? {
        error := OrElse(reply.message, MsgNoConnection);
        loading := false;
      } else if !reply.ok {
        error := OrElse(OrElse(reply.error, "Error " + ShowInt(reply.status)), MsgNoConnection);
        loading := false;
      } else {
        loading := false;
        if |reply.data| == 0 {
          error := MsgNoRooms;
        } else {
          nav := Some(Navigation("/habitaciones-disponibles", reply.data, entrada, salida, adultos, ninos));
        }
      }
    }
  }
}
