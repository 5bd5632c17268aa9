/**
 * The receptionist's reservation list: counters over all reservations and
 * a list filtered by status.
 */
module GestionReservas {
  import opened Text
  import opened Wrappers
  import opened Lists
  import opened Backend

  /** A reservation as the receptionist's pages list it; "" stands for a missing text. */
  datatype OpReserva = OpReserva(id: int, estado: string, estadoPago: string, pagoId: string, fechaReserva: Option<string>)

  /** The sample list this page shows when loading fails. */
  const SampleReservas: seq<OpReserva> := [OpReserva(1, "confirmada", "completado", "", None)]

  /**
   * `cargarReservas`: an ok answer gives `data.data || []`; any other status
   * keeps the current list; a failed request shows the page's sample list.
   */
  function Cargar(current: seq<OpReserva>, reply: Reply<Option<seq<OpReserva>>>, sample: seq<OpReserva>): (r: seq<OpReserva>)
    ensures reply.Thrown? ==> r == sample
    ensures reply.Answered? && reply.ok ==> r == reply.data.GetOr([])
    ensures reply.Answered? && !reply.ok ==> r == current
  {
    match reply
    case Thrown(_) => sample
    case Answered(ok, _, _, _, _, data) => if ok then data.GetOr([]) else current
  }

  /** The test of the status filter. */
  function Pasa(filtro: string): OpReserva -> bool {
    (r: OpReserva) => filtro == "todas" || r.estado == filtro
  }

  /** `reservasFiltradas` */
  function Filtradas(reservas: seq<OpReserva>, filtro: string): (r: seq<OpReserva>)
    ensures filtro != "todas" ==> forall i :: 0 <= i < |r| ==> r[i].estado == filtro && r[i] in reservas
    ensures forall i :: 0 <= i < |reservas| && (filtro == "todas" || reservas[i].estado == filtro) ==> reservas[i] in r
  {
    Filter(reservas, Pasa(filtro))
  }

  /** 'todas' shows every reservation, unchanged and in order. */
  lemma TodasKeepsAll(reservas: seq<OpReserva>)
    ensures Filtradas(reservas, "todas") == reservas
  {
    FilterKeepsAll(reservas, Pasa("todas"));
  }

  /** The filtered list keeps the original order. */
  lemma FiltradasKeepOrder(a: seq<OpReserva>, b: seq<OpReserva>, filtro: string)
    ensures Filtradas(a + b, filtro) == Filtradas(a, filtro) + Filtradas(b, filtro)
  {
    FilterConcat(a, b, Pasa(filtro));
  }

  datatype Contadores = Contadores(total: nat, pendientes: nat, confirmadas: nat, pagadas: nat)

  /** The four counters: all reservations, pending, confirmed, and paid ('completado'). */
  function Contar(reservas: seq<OpReserva>): (c: Contadores)
    ensures c.total == |reservas|
    ensures c.pendientes <= c.total && c.confirmadas <= c.total && c.pagadas <= c.total
    ensures c.pendientes + c.confirmadas <= c.total
  {
    CountDisjoint(reservas, (r: OpReserva) => r.estado == "pendiente", (r: OpReserva) => r.estado == "confirmada");
    Contadores(|reservas|,
               Count(reservas, (r: OpReserva) => r.estado == "pendiente"),
               Count(reservas, (r: OpReserva) => r.estado == "confirmada"),
               Count(reservas, (r: OpReserva) => r.estadoPago == "completado"))
  }

  /** The pending counter is the length of the list filtered by 'pendiente'. */
  lemma PendientesMatchFilter(reservas: seq<OpReserva>)
    ensures Contar(reservas).pendientes == |Filtradas(reservas, "pendiente")|
  {
    FilterSameTest(reservas, (r: OpReserva) => r.estado == "pendiente", Pasa("pendiente"));
  }

  /** Confirm and cancel buttons: only on pending reservations. */
  predicate OffersActions(r: OpReserva) {
    r.estado == "pendiente"
  }

  /** Under the 'confirmada' filter no card offers actions. */
  lemma ConfirmedFilterHasNoActions(reservas: seq<OpReserva>)
    ensures forall i :: 0 <= i < |Filtradas(reservas, "confirmada")| ==> !OffersActions(Filtradas(reservas, "confirmada")[i])
  {
  }

  /** The empty-list note: shown only for an empty filtered list, naming the filter unless it is 'todas'. */
  function EmptyNote(filtradas: seq<OpReserva>, filtro: string): (note: Option<string>)
    ensures note.Some? <==> |filtradas| == 0
    ensures note.Some? && filtro != "todas" ==> note.value == "No hay reservas con este filtro"
    ensures note.Some? && filtro == "todas" ==> note.value == "No hay reservas "
  {
    if |filtradas| == 0 then Some("No hay reservas " + (if filtro != "todas" then "con este filtro" else "")) else None
  }
}
