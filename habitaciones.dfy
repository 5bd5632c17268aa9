/**
 * The administrator's room page: the search filter, the colour of a room's
 * state, the form for creating and editing rooms, the state change that
 * refuses 'ocupada', and the month navigation of the availability calendar.
 */
module Habitaciones {
  import opened Text
  import opened Wrappers
  import opened Lists
  import opened Backend

  /** A value of the room form: the text inputs give strings, the number inputs numbers. */
  datatype FieldValue = Str(s: string) | Num(x: real) {
    predicate Truthy() {
      match this
      case Str(s) => s != ""
      case Num(x) => x != 0.0
    }
  }

  /** A room as the backend lists it, with the count of its active reservations. */
  datatype Room = Room(id: string, numero: string, nombre: string, tipo: string, descripcion: string,
                       capacidad: int, precio: real, imagen: string, estado: string, reservasActivas: int)

  // ---------------------------------------------------------------------
  // Search filter
  // ---------------------------------------------------------------------

  /** The room's numero, nombre or tipo contains the filter, ignoring ASCII case. */
  predicate Matches(filtro: string, h: Room) {
    var f := ToLower(filtro);
    Contains(ToLower(h.numero), f) || Contains(ToLower(h.nombre), f) || Contains(ToLower(h.tipo), f)
  }

  /** `habitacionesFiltradas` */
  function Filtrar(habitaciones: seq<Room>, filtro: string): (r: seq<Room>)
    ensures forall i :: 0 <= i < |r| ==> r[i] in habitaciones && Matches(filtro, r[i])
    ensures forall i :: 0 <= i < |habitaciones| && Matches(filtro, habitaciones[i]) ==> habitaciones[i] in r
  {
    Filter(habitaciones, h => Matches(filtro, h))
  }

  /** The filter keeps the rooms' order: filtering a concatenation concatenates the results. */
  lemma FiltrarKeepsOrder(a: seq<Room>, b: seq<Room>, filtro: string)
    ensures Filtrar(a + b, filtro) == Filtrar(a, filtro) + Filtrar(b, filtro)
  {
    FilterConcat(a, b, h => Matches(filtro, h));
  }

  /** An empty filter keeps every room. */
  lemma EmptyFilterKeepsAll(habitaciones: seq<Room>)
    ensures Filtrar(habitaciones, "") == habitaciones
  {
    forall i | 0 <= i < |habitaciones|
      ensures Matches("", habitaciones[i])
    {
      ContainsEmpty(ToLower(habitaciones[i].numero));
    }
    FilterKeepsAll(habitaciones, h => Matches("", h));
  }

  /** The filter ignores the case of what is typed. */
  lemma FilterIgnoresCase(habitaciones: seq<Room>, filtro: string)
    ensures Filtrar(habitaciones, filtro) == Filtrar(habitaciones, ToLower(filtro))
  {
    ToLowerIdempotent(filtro);
    FilterSameTest(habitaciones, h => Matches(filtro, h), h => Matches(ToLower(filtro), h));
  }

  // ---------------------------------------------------------------------
  // State colour
  // ---------------------------------------------------------------------

  const ColorLibre := "#722F37"
  const ColorReservada := "#D4A76A"
  const ColorOcupada := "#8B4513"
  const ColorMantenimiento := "#6D6875"
  const ColorOtro := "#B5838D"

  /** `getEstadoColor(estado, tieneReservas)` */
  function EstadoColor(estado: string, tieneReservas: bool): (c: string)
    ensures estado == "disponible" ==> c == (if tieneReservas then ColorReservada else ColorLibre)
    ensures estado == "ocupada" ==> c == ColorOcupada
    ensures estado == "mantenimiento" ==> c == ColorMantenimiento
    ensures estado !in {"disponible", "ocupada", "mantenimiento"} ==> c == ColorOtro
  {
    match estado
    case "disponible" => if tieneReservas then ColorReservada else ColorLibre
    case "ocupada" => ColorOcupada
    case "mantenimiento" => ColorMantenimiento
    case _ => ColorOtro
  }

  /** The colour a room card shows: only active reservations turn an available room's colour. */
  function CardColor(h: Room): (c: string)
    ensures h.estado == "disponible" ==> (c == ColorReservada <==> h.reservasActivas > 0)
    ensures h.estado != "disponible" ==> c == EstadoColor(h.estado, false)
  {
    EstadoColor(h.estado, h.reservasActivas > 0)
  }

  // ---------------------------------------------------------------------
  // Requests
  // ---------------------------------------------------------------------

  /** `cambiarEstado`: 'ocupada' is refused before any request; other states are sent as given. */
  function EstadoRequest(id: string, nuevoEstado: string): (r: Option<Request>)
    ensures r.None? <==> nuevoEstado == "ocupada"
    ensures r.Some? ==> r.value.verb == "PATCH" && r.value.params == [("estado", nuevoEstado)]
    ensures r.Some? ==> r.value.url == "/api/habitaciones/" + id + "/estado"
  {
    if nuevoEstado == "ocupada" then None
    else Some(Request("PATCH", "/api/habitaciones/" + id + "/estado", [("estado", nuevoEstado)]))
  }

  /**
   * `guardarHabitacion`: nothing is sent unless numero, nombre and descripcion
   * are filled in; an edited room is replaced with PUT, a new one created
   * with POST.
   */
  function SaveRequest(form: map<string, FieldValue>, editing: Option<Room>): (r: Option<Request>)
    ensures r.Some? <==>
      && "numero" in form && form["numero"].Truthy()
      && "nombre" in form && form["nombre"].Truthy()
      && "descripcion" in form && form["descripcion"].Truthy()
    ensures r.Some? && editing.Some? ==> r.value.verb == "PUT" && r.value.url == "/api/habitaciones/" + editing.value.id
    ensures r.Some? && editing.None? ==> r.value.verb == "POST" && r.value.url == "/api/habitaciones"
  {
    if !("numero" in form && form["numero"].Truthy())
       || !("nombre" in form && form["nombre"].Truthy())
       || !("descripcion" in form && form["descripcion"].Truthy()) then None
    else match editing
      case Some(h) => Some(Request("PUT", "/api/habitaciones/" + h.id, []))
      case None => Some(Request("POST", "/api/habitaciones", []))
  }

  /** The form for a new room. */
  const NewRoomForm: map<string, FieldValue> := map[
    "numero" := Str(""), "nombre" := Str(""), "tipo" := Str("doble"), "descripcion" := Str(""),
    "capacidad" := Num(2.0), "precio" := Num(0.0), "imagen" := Str("doble1.jpg"), "estado" := Str("disponible")]

  /** The form filled from a room being edited; a missing image becomes 'doble1.jpg'. */
  function EditForm(h: Room): (form: map<string, FieldValue>)
    ensures form.Keys == NewRoomForm.Keys
    ensures form["imagen"] == Str(if h.imagen == "" then "doble1.jpg" else h.imagen)
    ensures form["numero"] == Str(h.numero) && form["estado"] == Str(h.estado)
  {
    map["numero" := Str(h.numero), "nombre" := Str(h.nombre), "tipo" := Str(h.tipo),
        "descripcion" := Str(h.descripcion), "capacidad" := Num(h.capacidad as real),
        "precio" := Num(h.precio), "imagen" := Str(OrElse(h.imagen, "doble1.jpg")),
        "estado" := Str(h.estado)]
  }

  /** The new-room form cannot be saved as it opens: its numero is empty. */
  lemma NewFormNotSavable(editing: Option<Room>)
    ensures SaveRequest(NewRoomForm, editing).None?
  {
  }

  class RoomEditor {
    var nuevaHabitacion: map<string, FieldValue>
    var habitacionEditando: Option<Room>
    var mostrarModal: bool

    constructor ()
      ensures nuevaHabitacion == NewRoomForm && habitacionEditando.None? && !mostrarModal
    {
      nuevaHabitacion := NewRoomForm;
      habitacionEditando := None;
      mostrarModal := false;
    }

    method AbrirModalNueva()
      modifies this
      ensures nuevaHabitacion == NewRoomForm && habitacionEditando.None? && mostrarModal
    {
      habitacionEditando := None;
      nuevaHabitacion := NewRoomForm;
      mostrarModal := true;
    }

    method AbrirModalEditar(h: Room)
      modifies this
      ensures nuevaHabitacion == EditForm(h) && habitacionEditando == Some(h) && mostrarModal
    {
      habitacionEditando := Some(h);
      nuevaHabitacion := EditForm(h);
      mostrarModal := true;
    }

    /** `handleChange(field, value)`: only that field changes. */
    method HandleChange(field: string, value: FieldValue)
      modifies this`nuevaHabitacion
      ensures nuevaHabitacion == old(nuevaHabitacion)[field := value]
    {
      nuevaHabitacion := nuevaHabitacion[field := value];
    }

    /**
     * `guardarHabitacion`: the request, if the form may be sent; a reply
     * reporting success closes the modal, anything else leaves it open.
     */
    method GuardarHabitacion(reply: Reply<()>) returns (sent: Option<Request>)
      modifies this`mostrarModal, this`habitacionEditando
      ensures sent == SaveRequest(nuevaHabitacion, old(habitacionEditando))
      ensures sent.Some? && reply.Answered? && reply.success ==> !mostrarModal && habitacionEditando.None?
      ensures !(sent.Some? && reply.Answered? && reply.success) ==>
        mostrarModal == old(mostrarModal) && habitacionEditando == old(habitacionEditando)
    {
      sent := SaveRequest(nuevaHabitacion, habitacionEditando);
      if sent.Some? && reply.Answered? && reply.success {
        mostrarModal := false;
        habitacionEditando := None;
      }
    }
  }

  // ---------------------------------------------------------------------
  // Calendar month navigation
  // ---------------------------------------------------------------------

  /** The month shown by the availability calendar. */
  datatype Disponibilidad = Disponibilidad(mes: int, anio: int)

  /** The availability request `cambiarMesCalendario` makes: room, month and year. */
  datatype MonthRequest = MonthRequest(habitacionId: string, mes: int, anio: int)

  /**
   * `cambiarMesCalendario(incremento)`: nothing without a calendar open; past
   * December it goes to January of the next year, before January to
   * December of the year before.
   */
  function CambiarMes(disponibilidad: Option<Disponibilidad>, habitacion: Option<Room>, incremento: int): (r: Option<MonthRequest>)
    ensures r.None? <==> disponibilidad.None? || habitacion.None?
    ensures r.Some? ==> r.value.habitacionId == habitacion.value.id
    ensures r.Some? ==> var paso := disponibilidad.value.mes + incremento;
      && (1 <= paso <= 12 ==> r.value.mes == paso && r.value.anio == disponibilidad.value.anio)
      && (paso > 12 ==> r.value.mes == 1 && r.value.anio == disponibilidad.value.anio + 1)
      && (paso < 1 ==> r.value.mes == 12 && r.value.anio == disponibilidad.value.anio - 1)
  {
    if disponibilidad.None? || habitacion.None? then None
    else
      var nuevoMes := disponibilidad.value.mes + incremento;
      var nuevoAnio := disponibilidad.value.anio;
      if nuevoMes > 12 then Some(MonthRequest(habitacion.value.id, 1, nuevoAnio + 1))
      else if nuevoMes < 1 then Some(MonthRequest(habitacion.value.id, 12, nuevoAnio - 1))
      else Some(MonthRequest(habitacion.value.id, nuevoMes, nuevoAnio))
  }

  /**
   * The arrows move by one month: the month stays in 1..12 and the month
   * index anio * 12 + mes changes by exactly the step.
   */
  lemma StepByOneMonth(d: Disponibilidad, h: Room, incremento: int)
    requires 1 <= d.mes <= 12 && (incremento == 1 || incremento == -1)
    ensures var r := CambiarMes(Some(d), Some(h), incremento).value;
      1 <= r.mes <= 12 && r.anio * 12 + r.mes == d.anio * 12 + d.mes + incremento
  {
  }

  /** Going forward a month and back again returns to the month shown. */
  lemma NextThenPrevious(d: Disponibilidad, h: Room)
    requires 1 <= d.mes <= 12
    ensures var n := CambiarMes(Some(d), Some(h), 1).value;
      var p := CambiarMes(Some(Disponibilidad(n.mes, n.anio)), Some(h), -1).value;
      p.mes == d.mes && p.anio == d.anio
  {
  }
}
