/**
 * The receptionist's inbox of contact inquiries: the statuses an inquiry can
 * move through, the counters, the message preview, and what deleting,
 * answering and re-classifying an inquiry do to the list and the selection.
 */
module MensajesContacto {
  import opened Text
  import opened Wrappers
  import opened Lists
  import opened Backend

  datatype Consulta = Consulta(id: int, nombre: string, mensaje: string, estado: string)

  // ---------------------------------------------------------------------
  // Statuses
  // ---------------------------------------------------------------------

  /** The status buttons a card offers: none once resolved. */
  function Transitions(estado: string): (t: set<string>)
    ensures estado == "resuelto" <==> t == {}
    ensures estado != "resuelto" ==> "resuelto" in t
    ensures "en_proceso" in t <==> estado == "pendiente"
    ensures t <= {"en_proceso", "resuelto"}
  {
    if estado == "resuelto" then {}
    else if estado == "pendiente" then {"en_proceso", "resuelto"}
    else {"resuelto"}
  }

  /** How far along an inquiry is. */
  function Rank(estado: string): int {
    if estado == "pendiente" then 0 else if estado == "en_proceso" then 1 else 2
  }

  /** Every offered change moves a known status forward. */
  lemma TransitionsMoveForward(estado: string, nuevo: string)
    requires estado in {"pendiente", "en_proceso", "resuelto"} && nuevo in Transitions(estado)
    ensures Rank(nuevo) > Rank(estado)
  {
  }

  /** A run of offered changes: each status is one the previous offered. */
  predicate IsRun(run: seq<string>) {
    forall i :: 0 < i < |run| ==> run[i] in Transitions(run[i - 1])
  }

  /**
   * No inquiry is re-opened: a run of offered changes from a known status
   * visits at most three statuses and never returns to an earlier one.
   */
  lemma {:induction false} RunsAreShort(run: seq<string>)
    requires |run| > 0 && run[0] in {"pendiente", "en_proceso", "resuelto"} && IsRun(run)
    ensures |run| <= 3 - Rank(run[0])
    ensures forall i :: 0 < i < |run| ==> Rank(run[i]) > Rank(run[0])
    decreases |run|
  {
    if |run| > 1 {
      assert run[1] in Transitions(run[0]);
      var rest := run[1..];
      assert IsRun(rest) by {
        forall i | 0 < i < |rest|
          ensures rest[i] in Transitions(rest[i - 1])
        {
          assert rest[i] == run[i + 1] && rest[i - 1] == run[i];
        }
      }
      RunsAreShort(rest);
      forall i | 0 < i < |run|
        ensures Rank(run[i]) > Rank(run[0])
      {
        if i > 1 {
          assert run[i] == rest[i - 1];
        }
      }
    }
  }

  /** `getEstadoBadge`: class and label; an unknown status is shown as pending. */
  function Badge(estado: string): (b: (string, string))
    ensures estado != "en_proceso" && estado != "resuelto" ==> b == ("estado-pendiente", "Pendiente")
    ensures estado == "en_proceso" ==> b == ("estado-proceso", "En Proceso")
    ensures estado == "resuelto" ==> b == ("estado-resuelto", "Resuelto")
  {
    if estado == "en_proceso" then ("estado-proceso", "En Proceso")
    else if estado == "resuelto" then ("estado-resuelto", "Resuelto")
    else ("estado-pendiente", "Pendiente")
  }

  // ---------------------------------------------------------------------
  // Counters and preview
  // ---------------------------------------------------------------------

  datatype Estadisticas = Estadisticas(total: nat, pendientes: nat, enProceso: nat, resueltas: nat)

  /** `getEstadisticas`: exact status matches; inquiries of any other status are in none of them. */
  function GetEstadisticas(consultas: seq<Consulta>): (e: Estadisticas)
    ensures e.total == |consultas|
    ensures e.pendientes + e.enProceso + e.resueltas <= e.total
  {
    var p := Count(consultas, (c: Consulta) => c.estado == "pendiente");
    var q := Count(consultas, (c: Consulta) => c.estado == "en_proceso");
    var r := Count(consultas, (c: Consulta) => c.estado == "resuelto");
    CountDisjoint3(consultas, (c: Consulta) => c.estado == "pendiente", (c: Consulta) => c.estado == "en_proceso", (c: Consulta) => c.estado == "resuelto");
    Estadisticas(|consultas|, p, q, r)
  }

  /** One more inquiry raises the total and exactly the counter of its own status, by one. */
  lemma AddingInquiryCountsItsStatus(consultas: seq<Consulta>, c: Consulta)
    ensures GetEstadisticas(consultas + [c]).total == GetEstadisticas(consultas).total + 1
    ensures GetEstadisticas(consultas + [c]).pendientes
            == GetEstadisticas(consultas).pendientes + (if c.estado == "pendiente" then 1 else 0)
    ensures GetEstadisticas(consultas + [c]).enProceso
            == GetEstadisticas(consultas).enProceso + (if c.estado == "en_proceso" then 1 else 0)
    ensures GetEstadisticas(consultas + [c]).resueltas
            == GetEstadisticas(consultas).resueltas + (if c.estado == "resuelto" then 1 else 0)
  {
    FilterConcat(consultas, [c], (c: Consulta) => c.estado == "pendiente");
    FilterConcat(consultas, [c], (c: Consulta) => c.estado == "en_proceso");
    FilterConcat(consultas, [c], (c: Consulta) => c.estado == "resuelto");
  }

  /**
   * An inquiry whose status is none of the three wears the Pendiente badge
   * but is left out of the Pendientes counter.
   */
  lemma UnknownStatusBadgedButNotCounted(consultas: seq<Consulta>, c: Consulta)
    requires c.estado !in {"pendiente", "en_proceso", "resuelto"}
    ensures Badge(c.estado).1 == "Pendiente"
    ensures GetEstadisticas(consultas + [c]).pendientes == GetEstadisticas(consultas).pendientes
    ensures GetEstadisticas(consultas + [c]).total == GetEstadisticas(consultas).total + 1
  {
    AddingInquiryCountsItsStatus(consultas, c);
  }

  /** The card preview: messages over 100 characters are cut to 100 and marked with "...". */
  function Preview(mensaje: string): (p: string)
    ensures |p| <= 103
    ensures |mensaje| <= 100 ==> p == mensaje
    ensures |mensaje| > 100 ==> p == mensaje[..100] + "..." && mensaje[..100] == p[..100]
  {
    if |mensaje| > 100 then mensaje[..100] + "..." else mensaje
  }

  // ---------------------------------------------------------------------
  // The inbox
  // ---------------------------------------------------------------------

  /** `cargarConsultas`: `data.consultas || []` from an ok answer, [] otherwise. */
  function Loaded(reply: Reply<Option<seq<Consulta>>>): (r: seq<Consulta>)
    ensures reply.Answered? && reply.ok && reply.data.Some? ==> r == reply.data.value
    ensures reply.Answered? && reply.ok && reply.data.None? ==> r == []
    ensures !(reply.Answered? && reply.ok) ==> r == []
  {
    if reply.Answered? && reply.ok then reply.data.GetOr([]) else []
  }

  /** The list after deleting `id`: exactly the inquiries with another id, in their order. */
  function WithoutId(consultas: seq<Consulta>, id: int): (r: seq<Consulta>)
    ensures forall i :: 0 <= i < |r| ==> r[i].id != id && r[i] in consultas
    ensures forall i :: 0 <= i < |consultas| && consultas[i].id != id ==> consultas[i] in r
  {
    Filter(consultas, (c: Consulta) => c.id != id)
  }

  /** Deleting keeps the order of what remains. */
  lemma WithoutIdKeepsOrder(a: seq<Consulta>, b: seq<Consulta>, id: int)
    ensures WithoutId(a + b, id) == WithoutId(a, id) + WithoutId(b, id)
  {
    FilterConcat(a, b, (c: Consulta) => c.id != id);
  }

  /** Deleting an id no inquiry has changes nothing. */
  lemma WithoutAbsentId(consultas: seq<Consulta>, id: int)
    requires forall i :: 0 <= i < |consultas| ==> consultas[i].id != id
    ensures WithoutId(consultas, id) == consultas
  {
    FilterKeepsAll(consultas, (c: Consulta) => c.id != id);
  }

  class Inbox {
    var consultas: seq<Consulta>
    var seleccionada: Option<Consulta>
    var respuesta: string

    constructor ()
      ensures consultas == [] && seleccionada.None? && respuesta == ""
    {
      consultas := [];
      seleccionada := None;
      respuesta := "";
    }

    /**
     * `eliminarConsulta(id)`: after the confirmation and an ok answer the
     * inquiry leaves the list, and if it was the one open, the panel and
     * the draft reply are cleared. Otherwise nothing changes.
     */
    method EliminarConsulta(id: int, confirmed: bool, deleted: bool)
      modifies this
      ensures confirmed && deleted ==> consultas == WithoutId(old(consultas), id)
      ensures confirmed && deleted && old(seleccionada).Some? && old(seleccionada).value.id == id ==>
        seleccionada.None? && respuesta == ""
      ensures !(confirmed && deleted && old(seleccionada).Some? && old(seleccionada).value.id == id) ==>
        seleccionada == old(seleccionada) && respuesta == old(respuesta)
      ensures !(confirmed && deleted) ==> consultas == old(consultas)
    {
      if !confirmed || !deleted {
        return;
      }
      consultas := WithoutId(consultas, id);
      if seleccionada.Some? && seleccionada.value.id == id {
        seleccionada := None;
        respuesta := "";
      }
    }

    /**
     * `handleResponder`: nothing happens for a blank reply or with no inquiry
     * open. An ok answer reloads the list and closes the panel.
     */
    method HandleResponder(ok: bool, reload: Reply<Option<seq<Consulta>>>) returns (sent: bool)
      modifies this
      ensures sent <==> !IsBlank(old(respuesta)) && old(seleccionada).Some?
      ensures sent && ok ==> consultas == Loaded(reload) && respuesta == "" && seleccionada.None?
      ensures !(sent && ok) ==>
        consultas == old(consultas) && respuesta == old(respuesta) && seleccionada == old(seleccionada)
    {
      if IsBlank(respuesta) || seleccionada.None? {
        return false;
      }
      sent := true;
      if ok {
        consultas := Loaded(reload);
        respuesta := "";
        seleccionada := None;
      }
    }

    /**
     * `cambiarEstadoConsulta(id, nuevoEstado)`: an ok answer reloads the list
     * and, when the open inquiry has that id, only its status changes.
     */
    method CambiarEstadoConsulta(id: int, nuevoEstado: string, ok: bool, reload: Reply<Option<seq<Consulta>>>)
      modifies this`consultas, this`seleccionada
      ensures ok ==> consultas == Loaded(reload)
      ensures ok && old(seleccionada).Some? && old(seleccionada).value.id == id ==>
        seleccionada == Some(old(seleccionada).value.(estado := nuevoEstado))
      ensures !(ok && old(seleccionada).Some? && old(seleccionada).value.id == id) ==>
        seleccionada == old(seleccionada)
      ensures !ok ==> consultas == old(consultas)
    {
      if ok {
        consultas := Loaded(reload);
        if seleccionada.Some? && seleccionada.value.id == id {
          seleccionada := Some(seleccionada.value.(estado := nuevoEstado));
        }
      }
    }
  }
}
