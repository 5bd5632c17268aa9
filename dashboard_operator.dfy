/**
 * The receptionist's dashboard: room counters in the header and one of
 * four panels below.
 */
module DashboardOperator {
  import opened Lists
  import opened Backend
  import opened Browser
  import Habitaciones

  type Room = Habitaciones.Room

  datatype Estadisticas = Estadisticas(totalHabitaciones: nat, disponibles: nat, ocupadas: nat,
                                       mantenimiento: nat, reservasHoy: int, ingresosHoy: int)

  const InitialStats := Estadisticas(0, 0, 0, 0, 0, 0)
  /** The figures shown when the rooms cannot be loaded. */
  const FallbackStats := Estadisticas(5, 4, 1, 0, 1, 516)

  /**
   * The figures computed from the room list: exact matches of each state;
   * today's reservations and income are fixed numbers, not derived from data.
   */
  function RoomStats(habitaciones: seq<Room>): (e: Estadisticas)
    ensures e.totalHabitaciones == |habitaciones|
    ensures e.disponibles + e.ocupadas + e.mantenimiento <= e.totalHabitaciones
    ensures e.reservasHoy == 3 && e.ingresosHoy == 1548
  {
    var d := (h: Room) => h.estado == "disponible";
    var o := (h: Room) => h.estado == "ocupada";
    var m := (h: Room) => h.estado == "mantenimiento";
    CountDisjoint3(habitaciones, d, o, m);
    Estadisticas(|habitaciones|, Count(habitaciones, d), Count(habitaciones, o), Count(habitaciones, m), 3, 1548)
  }

  /** When every room has one of the three states, the three counters add up to the total. */
  lemma {:induction false} StatsCoverKnownStates(habitaciones: seq<Room>)
    requires forall i :: 0 <= i < |habitaciones| ==> habitaciones[i].estado in {"disponible", "ocupada", "mantenimiento"}
    ensures RoomStats(habitaciones).disponibles + RoomStats(habitaciones).ocupadas + RoomStats(habitaciones).mantenimiento
            == |habitaciones|
    decreases |habitaciones|
  {
    if habitaciones != [] {
      StatsCoverKnownStates(habitaciones[1..]);
    }
  }

  /** One more room raises the total and exactly the counter of its own state, by one. */
  lemma AddingRoomCountsItsState(habitaciones: seq<Room>, h: Room)
    ensures RoomStats(habitaciones + [h]).totalHabitaciones == RoomStats(habitaciones).totalHabitaciones + 1
    ensures RoomStats(habitaciones + [h]).disponibles
            == RoomStats(habitaciones).disponibles + (if h.estado == "disponible" then 1 else 0)
    ensures RoomStats(habitaciones + [h]).ocupadas
            == RoomStats(habitaciones).ocupadas + (if h.estado == "ocupada" then 1 else 0)
    ensures RoomStats(habitaciones + [h]).mantenimiento
            == RoomStats(habitaciones).mantenimiento + (if h.estado == "mantenimiento" then 1 else 0)
  {
    var d := (h: Room) => h.estado == "disponible";
    var o := (h: Room) => h.estado == "ocupada";
    var m := (h: Room) => h.estado == "mantenimiento";
    FilterConcat(habitaciones, [h], d);
    FilterConcat(habitaciones, [h], o);
    FilterConcat(habitaciones, [h], m);
  }

  /** The four panels of the dashboard. */
  datatype Panel = Mapa | Reservas | Pagos | Mensajes

  /** `renderSeccion`: an unknown section shows the map. */
  function RenderSeccion(seccion: string): (p: Panel)
    ensures seccion == "reservas" <==> p == Reservas
    ensures seccion == "pagos" <==> p == Pagos
    ensures seccion == "mensajes" <==> p == Mensajes
    ensures seccion !in {"reservas", "pagos", "mensajes"} <==> p == Mapa
  {
    match seccion
    case "mapa" => Mapa
    case "reservas" => Reservas
    case "pagos" => Pagos
    case "mensajes" => Mensajes
    case _ => Mapa
  }

  class OperatorDashboard {
    var seccionActiva: string
    var estadisticas: Estadisticas

    constructor ()
      ensures seccionActiva == "mapa" && estadisticas == InitialStats
    {
      seccionActiva := "mapa";
      estadisticas := InitialStats;
    }

    method SetSeccion(s: string)
      modifies this`seccionActiva
      ensures seccionActiva == s
    {
      seccionActiva := s;
    }

    /**
     * `cargarEstadisticas`: an ok answer gives the counters of its rooms; any
     * other status changes nothing; a failed request shows the fixed fallback.
     */
    method CargarEstadisticas(reply: Reply<seq<Room>>)
      modifies this`estadisticas
      ensures reply.Answered? && reply.ok ==> estadisticas == RoomStats(reply.data)
      ensures reply.Answered? && !reply.ok ==> estadisticas == old(estadisticas)
      ensures reply.Thrown? ==> estadisticas == FallbackStats
      ensures reply.Answered? && reply.ok ==>
                estadisticas.disponibles + estadisticas.ocupadas + estadisticas.mantenimiento <= estadisticas.totalHabitaciones
    {
      match reply {
        case Thrown(_) =>
          estadisticas := FallbackStats;
        case Answered(ok, _, _, _, _, data) =>
          if ok {
            estadisticas := RoomStats(data);
          }
      }
    }

    /** `handleLogout`: only 'user' is removed; the token stays. */
    method HandleLogout(storage: Storage) returns (navigateTo: string)
      modifies storage
      ensures storage.items == old(storage.items) - {"user"}
      ensures "token" in old(storage.items) ==> "token" in storage.items && storage.items["token"] == old(storage.items)["token"]
      ensures navigateTo == "/"
    {
      storage.RemoveItem("user");
      navigateTo := "/";
    }
  }
}
