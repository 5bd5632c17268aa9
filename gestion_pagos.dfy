/**
 * The receptionist's payments page: reservations awaiting payment and the
 * history of the others.
 */
module GestionPagos {
  import opened Text
  import opened Wrappers
  import opened Lists
  import opened Backend
  import opened GestionReservas

  /** The sample list this page shows when loading fails: one settled payment. */
  const SamplePagos: seq<OpReserva> := [OpReserva(1, "", "completado", "TEST_001", None)]

  function IsPendiente(): OpReserva -> bool {
    (r: OpReserva) => r.estadoPago == "pendiente"
  }

  function NotPendiente(): OpReserva -> bool {
    (r: OpReserva) => r.estadoPago != "pendiente"
  }

  /** `reservasPendientes` */
  function Pendientes(reservas: seq<OpReserva>): (r: seq<OpReserva>)
    ensures forall i :: 0 <= i < |r| ==> r[i].estadoPago == "pendiente" && r[i] in reservas
    ensures forall i :: 0 <= i < |reservas| && reservas[i].estadoPago == "pendiente" ==> reservas[i] in r
  {
    Filter(reservas, IsPendiente())
  }

  /** `historialPagos` */
  function Historial(reservas: seq<OpReserva>): (r: seq<OpReserva>)
    ensures forall i :: 0 <= i < |r| ==> r[i].estadoPago != "pendiente" && r[i] in reservas
    ensures forall i :: 0 <= i < |reservas| && reservas[i].estadoPago != "pendiente" ==> reservas[i] in r
  {
    Filter(reservas, NotPendiente())
  }

  /** When loading fails nothing awaits payment and the one sample payment is in the history. */
  lemma FailedLoadShowsOnlyHistory(current: seq<OpReserva>, message: string)
    ensures Pendientes(Cargar(current, Thrown(message), SamplePagos)) == []
    ensures Historial(Cargar(current, Thrown(message), SamplePagos)) == SamplePagos
  {
    var s := SamplePagos;
    assert s[1..] == [];
    assert Filter(s, IsPendiente()) == Filter(s[1..], IsPendiente());
    assert Filter(s, NotPendiente()) == [s[0]] + Filter(s[1..], NotPendiente());
  }

  /**
   * The two lists partition the reservations: no reservation is in both,
   * together they hold every reservation as often as it occurs, and their
   * lengths add up to the total.
   */
  lemma PendientesHistorialPartition(reservas: seq<OpReserva>)
    ensures forall r :: r in Pendientes(reservas) ==> r !in Historial(reservas)
    ensures multiset(Pendientes(reservas)) + multiset(Historial(reservas)) == multiset(reservas)
    ensures |Pendientes(reservas)| + |Historial(reservas)| == |reservas|
  {
    FilterPartition(reservas, IsPendiente(), NotPendiente());
  }

  /** Both lists keep the original order. */
  lemma PartitionKeepsOrder(a: seq<OpReserva>, b: seq<OpReserva>)
    ensures Pendientes(a + b) == Pendientes(a) + Pendientes(b)
    ensures Historial(a + b) == Historial(a) + Historial(b)
  {
    FilterConcat(a, b, IsPendiente());
    FilterConcat(a, b, NotPendiente());
  }

  /** The pending section lists cards exactly when some reservation awaits payment. */
  lemma PendingSectionShown(reservas: seq<OpReserva>)
    ensures |Pendientes(reservas)| > 0 <==> exists i :: 0 <= i < |reservas| && reservas[i].estadoPago == "pendiente"
  {
    if |Pendientes(reservas)| > 0 {
      var p := Pendientes(reservas);
      assert p[0] in reservas;
      var i :| 0 <= i < |reservas| && reservas[i] == p[0];
    }
  }

  /** `reserva.pago_id || 'N/A'` */
  function PagoIdShown(pagoId: string): (s: string)
    ensures pagoId != "" ==> s == pagoId
    ensures pagoId == "" ==> s == "N/A"
  {
    OrElse(pagoId, "N/A")
  }

  /** `s.split('T')[0]`: the text before the first 'T', or all of it. */
  function BeforeT(s: string): (d: string)
    ensures 'T' !in d
    ensures |d| <= |s| && d == s[..|d|]
    ensures |d| < |s| ==> s[|d|] == 'T'
  {
    var k := IndexOf(s, 'T');
    if k == -1 then s else s[..k]
  }

  /** An ISO timestamp shows its date part. */
  lemma BeforeTOfTimestamp(date: string, time: string)
    requires 'T' !in date
    ensures BeforeT(date + "T" + time) == date
  {
    var s := date + "T" + time;
    assert s[..|date|] == date;
    assert s[|date|] == 'T';
    assert forall i :: 0 <= i < |date| ==> s[i] == date[i] && s[i] != 'T';
    IndexOfFirst(s, 'T', |date|);
  }

  /** `reserva.fecha_reserva?.split('T')[0] || 'N/A'` */
  function FechaShown(fechaReserva: Option<string>): (s: string)
    ensures fechaReserva.None? ==> s == "N/A"
    ensures fechaReserva.Some? && BeforeT(fechaReserva.value) != "" ==> s == BeforeT(fechaReserva.value)
    ensures fechaReserva.Some? && BeforeT(fechaReserva.value) == "" ==> s == "N/A"
    ensures (s != "" && 'T' !in s) || s == "N/A"
  {
    match fechaReserva
    case None => "N/A"
    case Some(f) => OrElse(BeforeT(f), "N/A")
  }
}
