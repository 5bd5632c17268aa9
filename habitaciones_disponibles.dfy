/**
 * The page of available rooms the search leads to: the rooms it was handed,
 * the availability re-check against the backend and the several shapes its
 * answer may take, the guard that shows the "no rooms" view, and the card
 * details (the counter caption, the PREMIUM badge, the picture).
 */
module HabitacionesDisponibles {
  import opened Text
  import opened Wrappers
  import opened Backend
  import Habitaciones
  import BusquedaReservas

  type Room = Habitaciones.Room

  // ---------------------------------------------------------------------
  // What the page is handed
  // ---------------------------------------------------------------------

  /** `datosBusqueda`: the dates ("" when absent) and the guest counts. */
  datatype Busqueda = Busqueda(entrada: string, salida: string, adultos: int, ninos: int)

  /**
   * `location.state`: absent when the page is opened directly; otherwise the
   * rooms (`None` when that value is not an array) and the search.
   */
  datatype LocationState =
    | NoState
    | State(habitaciones: Option<seq<Room>>, busqueda: Busqueda)

  /** The initial rooms: `[]` without a state. */
  function Iniciales(st: LocationState): (r: Option<seq<Room>>)
    ensures st.NoState? ==> r == Some([])
    ensures st.State? ==> r == st.habitaciones
  {
    match st
    case NoState => Some([])
    case State(h, _) => h
  }

  /** The search: `{}` without a state, so neither date is present. */
  function DatosBusqueda(st: LocationState): (b: Busqueda)
    ensures st.NoState? ==> b.entrada == "" && b.salida == ""
    ensures st.State? ==> b == st.busqueda
  {
    match st
    case NoState => Busqueda("", "", 0, 0)
    case State(_, b) => b
  }

  /** The state the search page navigates with. */
  function FromNavigation(nav: BusquedaReservas.Navigation<Room>): (st: LocationState)
    ensures st.State? && st.habitaciones == Some(nav.habitaciones)
    ensures st.busqueda.entrada == nav.entrada && st.busqueda.salida == nav.salida
  {
    State(Some(nav.habitaciones), Busqueda(nav.entrada, nav.salida, nav.adultos, nav.ninos))
  }

  /** The re-check runs only when both dates are present. */
  predicate ChecksAvailability(b: Busqueda) {
    Truthy(b.entrada) && Truthy(b.salida)
  }

  // ---------------------------------------------------------------------
  // The availability answer
  // ---------------------------------------------------------------------

  /** The URL of the availability re-check. */
  const DisponiblesUrl := "http://localhost:5000/api/habitaciones/disponibles"

  /** `verificarDisponibilidadReal`'s request: a POST carrying the search. */
  function CheckRequest(b: Busqueda): (r: Request)
    ensures r.verb == "POST" && r.url == DisponiblesUrl
    ensures |r.params| == 4 && r.params[0] == ("entrada", b.entrada) && r.params[1] == ("salida", b.salida)
    ensures r.params[2] == ("adultos", ShowInt(b.adultos)) && r.params[3] == ("ninos", ShowInt(b.ninos))
  {
    Request("POST", DisponiblesUrl,
      [("entrada", b.entrada), ("salida", b.salida), ("adultos", ShowInt(b.adultos)), ("ninos", ShowInt(b.ninos))])
  }

  /**
   * The decoded body of an ok answer, by the shapes the page tells apart: an
   * array of rooms; an object with its `success` flag and its `data` (`None`
   * when missing or not an array); `null`, whose fields cannot be read; or a
   * string, number or boolean, which has no array anywhere.
   */
  datatype Body =
    | ArrayBody(items: seq<Room>)
    | ObjectBody(success: bool, data: Option<seq<Room>>)
    | NullBody
    | ScalarBody

  /** The body itself, when it is an array. */
  function AsArray(b: Body): Option<seq<Room>> {
    if b.ArrayBody? then Some(b.items) else None
  }

  /** Its `data` field, when that is an array. */
  function DataArray(b: Body): Option<seq<Room>> {
    if b.ObjectBody? then b.data else None
  }

  /** The first array among the candidates, `[]` when none is. */
  function FirstArray(candidates: seq<Option<seq<Room>>>): (r: seq<Room>)
    ensures (forall i :: 0 <= i < |candidates| ==> candidates[i].None?) ==> r == []
    ensures candidates != [] && candidates[0].Some? ==> r == candidates[0].value
  {
    if candidates == [] then []
    else if candidates[0].Some? then candidates[0].value
    else FirstArray(candidates[1..])
  }

  /**
   * The rooms the page keeps from an ok answer: `data` when `success` is set
   * and `data` is an array, else the body when it is an array, else `data`
   * when it is an array, else the initial rooms when they are an array, else
   * `[]`. `None` when reading `success` off a `null` body throws.
   */
  function Normalize(b: Body, iniciales: Option<seq<Room>>): (r: Option<seq<Room>>)
    ensures r.None? <==> b.NullBody?
  {
    if b.NullBody? then None
    else if b.ObjectBody? && b.success && b.data.Some? then Some(b.data.value)
    else if b.ArrayBody? then Some(b.items)
    else if b.ObjectBody? && b.data.Some? then Some(b.data.value)
    else if iniciales.Some? then Some(iniciales.value)
    else Some([])
  }

  /**
   * The whole chain amounts to taking the first array among the body, its
   * `data` and the initial rooms: an array body has no `data`, and a body
   * with an array `data` is no array, so the order of the first three tests
   * never matters.
   */
  lemma NormalizeIsFirstArray(b: Body, iniciales: Option<seq<Room>>)
    requires !b.NullBody?
    ensures Normalize(b, iniciales) == Some(FirstArray([AsArray(b), DataArray(b), iniciales]))
  {
    var c := [AsArray(b), DataArray(b), iniciales];
    assert c[1..] == [DataArray(b), iniciales];
    assert c[1..][1..] == [iniciales];
    assert c[1..][1..][1..] == [];
  }

  /** The `success` flag never changes which rooms are kept. */
  lemma SuccessFlagIrrelevant(data: Option<seq<Room>>, iniciales: Option<seq<Room>>)
    ensures Normalize(ObjectBody(true, data), iniciales) == Normalize(ObjectBody(false, data), iniciales)
  {
  }

  /** What is kept is always an array, and an answer without any array falls back to the initial rooms. */
  lemma NormalizeFallsBack(b: Body, iniciales: Option<seq<Room>>)
    requires b.ScalarBody? || (b.ObjectBody? && b.data.None?)
    ensures Normalize(b, iniciales) == Some(iniciales.GetOr([]))
  {
  }

  // ---------------------------------------------------------------------
  // What a card and the counter show
  // ---------------------------------------------------------------------

  /** `habitacionesSeguras`: a state that is not an array counts as no rooms. */
  function Seguras(habitaciones: Option<seq<Room>>): (r: seq<Room>)
    ensures habitaciones.Some? ==> r == habitaciones.value
    ensures habitaciones.None? ==> r == []
  {
    habitaciones.GetOr([])
  }

  /** The "no rooms available" view replaces the grid. */
  predicate ShowsNoRooms(habitaciones: Option<seq<Room>>) {
    |Seguras(habitaciones)| == 0
  }

  /** The counter's caption after the number; the plural keeps the accent of the singular. */
  function CounterCaption(n: int): (r: string)
    ensures n > 1 ==> r == "habitaciónes disponibles"
    ensures n <= 1 ==> r == "habitación disponible"
    ensures |r| == (if n > 1 then 24 else 21)
  {
    "habitación" + (if n > 1 then "es" else "") + " disponible" + (if n > 1 then "s" else "")
  }

  /** The PREMIUM badge: only for the type written exactly 'suite'. */
  predicate ShowsPremium(h: Room) {
    h.tipo == "suite"
  }

  /** The badge compares the type as written: 'Suite' earns none. */
  lemma PremiumIsCaseSensitive(h: Room)
    requires h.tipo == "Suite"
    ensures !ShowsPremium(h) && ToLower(h.tipo) == "suite"
  {
  }

  const DefaultRoomImage := "/images/habitacion-default.jpg"

  /** A card's picture: the room's image under /images/, the default without one or once it failed to load. */
  function ImageSrc(h: Room, failed: bool): (src: string)
    ensures StartsWith(src, "/images/")
    ensures failed || h.imagen == "" ==> src == DefaultRoomImage
    ensures !failed && h.imagen != "" ==> src == "/images/" + h.imagen
  {
    if failed || h.imagen == "" then DefaultRoomImage else "/images/" + h.imagen
  }

  // ---------------------------------------------------------------------
  // The page
  // ---------------------------------------------------------------------

  class AvailableRooms {
    var habitaciones: Option<seq<Room>>
    var cargando: bool
    var modalAbierto: bool
    var seleccionada: Option<Room>

    constructor ()
      ensures habitaciones == Some([]) && !cargando && !modalAbierto && seleccionada.None?
    {
      habitaciones := Some([]);
      cargando := false;
      modalAbierto := false;
      seleccionada := None;
    }

    /**
     * `verificarDisponibilidadReal`: an ok answer replaces the rooms with its
     * normalised list; a failed request, an answer that is not ok or a body
     * whose fields cannot be read puts back the initial rooms when they are
     * an array and otherwise leaves the rooms as they were. Loading ends
     * either way.
     */
    method VerificarDisponibilidad(iniciales: Option<seq<Room>>, busqueda: Busqueda, reply: Reply<Body>)
      returns (req: Request)
      modifies this`habitaciones, this`cargando
      ensures req == CheckRequest(busqueda)
      ensures !cargando
      ensures reply.Answered? && reply.ok && !reply.data.NullBody? ==>
        habitaciones == Normalize(reply.data, iniciales)
      ensures !(reply.Answered? && reply.ok && !reply.data.NullBody?) ==>
        habitaciones == (if iniciales.Some? then iniciales else old(habitaciones))
      ensures old(habitaciones).Some? ==> habitaciones.Some?
    {
      cargando := true;
      req := CheckRequest(busqueda);
      var kept: Option<seq<Room>> := None;
      if reply.Answered? && reply.ok {
        kept := Normalize(reply.data, iniciales);
      }
      match kept {
        case Some(rooms) =>
          habitaciones := Some(rooms);
        case None =>
          if iniciales.Some? {
            habitaciones := iniciales;
          }
      }
      cargando := false;
    }

    /**
     * The mount effect: an array of initial rooms is shown, and with both
     * dates present the availability is checked again.
     */
    method Mount(st: LocationState, reply: Reply<Body>) returns (req: Option<Request>)
      modifies this`habitaciones, this`cargando
      ensures req.Some? <==> ChecksAvailability(DatosBusqueda(st))
      ensures req.Some? ==> req.value == CheckRequest(DatosBusqueda(st))
      ensures req.None? ==> habitaciones == (if Iniciales(st).Some? then Iniciales(st) else old(habitaciones))
      ensures req.None? ==> cargando == old(cargando)
      ensures req.Some? ==> !cargando
      ensures req.Some? && reply.Answered? && reply.ok && !reply.data.NullBody? ==>
        habitaciones == Normalize(reply.data, Iniciales(st))
      ensures req.Some? && !(reply.Answered? && reply.ok && !reply.data.NullBody?) ==>
        habitaciones == (if Iniciales(st).Some? then Iniciales(st) else old(habitaciones))
      ensures old(habitaciones).Some? ==> habitaciones.Some?
    {
      var iniciales := Iniciales(st);
      if iniciales.Some? {
        habitaciones := iniciales;
      }
      var busqueda := DatosBusqueda(st);
      if ChecksAvailability(busqueda) {
        var r := VerificarDisponibilidad(iniciales, busqueda, reply);
        req := Some(r);
      } else {
        req := None;
      }
    }

    /** "Reservar Ahora": the room is selected and the booking modal opens. */
    method Reservar(h: Room)
      modifies this`seleccionada, this`modalAbierto
      ensures seleccionada == Some(h) && modalAbierto
    {
      seleccionada := Some(h);
      modalAbierto := true;
    }

    /** A confirmed booking closes the modal and checks the availability again. */
    method OnReservaConfirmada(st: LocationState, reply: Reply<Body>) returns (req: Request)
      modifies this`modalAbierto, this`habitaciones, this`cargando
      ensures !modalAbierto && !cargando
      ensures req == CheckRequest(DatosBusqueda(st))
      ensures reply.Answered? && reply.ok && !reply.data.NullBody? ==>
        habitaciones == Normalize(reply.data, Iniciales(st))
      ensures !(reply.Answered? && reply.ok && !reply.data.NullBody?) ==>
        habitaciones == (if Iniciales(st).Some? then Iniciales(st) else old(habitaciones))
      ensures old(habitaciones).Some? ==> habitaciones.Some?
    {
      modalAbierto := false;
      req := VerificarDisponibilidad(Iniciales(st), DatosBusqueda(st), reply);
    }
  }

  /**
   * Arriving from the search with both dates filled in, the page shows the
   * rooms the search found and re-checks them; when the re-check fails they
   * stay on screen.
   */
  lemma ArrivalFromSearch(nav: BusquedaReservas.Navigation<Room>)
    requires nav.entrada != "" && nav.salida != ""
    ensures ChecksAvailability(DatosBusqueda(FromNavigation(nav)))
    ensures Iniciales(FromNavigation(nav)) == Some(nav.habitaciones)
    ensures Normalize(ScalarBody, Iniciales(FromNavigation(nav))) == Some(nav.habitaciones)
  {
  }

  /** Opened directly, the page checks nothing and shows the "no rooms" view. */
  lemma DirectVisitShowsNoRooms()
    ensures !ChecksAvailability(DatosBusqueda(NoState))
    ensures ShowsNoRooms(Iniciales(NoState))
  {
  }
}
