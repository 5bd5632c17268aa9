/**
 * "Mis Reservas": a guest looks up their reservations by e-mail and may
 * cancel a confirmed one before check-in.
 */
module MisReservas {
  import opened Text
  import opened Backend
  import opened StayRules

  /** The fields of a reservation the view decides on. Instants are milliseconds. */
  datatype Reserva = Reserva(id: int, estado: string, estadoPago: string, fechaEntrada: int, fechaSalida: int)

  const MsgEmailRequired := "Por favor ingresa tu email"
  const MsgSearchFailed := "Error al buscar reservas"
  const MsgConnection := "Error de conexión con el servidor"

  /** What a successful cancellation does to one reservation. */
  function Cancelled(r: Reserva, reembolso: bool): Reserva {
    r.(estado := "cancelada", estadoPago := if reembolso then "reembolsado" else r.estadoPago)
  }

  /** One reservation after the cancellation of `id`: cancelled if it has that id, as it was otherwise. */
  function CancelOne(r: Reserva, id: int, reembolso: bool): (c: Reserva)
    ensures r.id != id ==> c == r
    ensures r.id == id ==> c.estado == "cancelada"
    ensures r.id == id ==> c.estadoPago == (if reembolso then "reembolsado" else r.estadoPago)
    ensures c.id == r.id && c.fechaEntrada == r.fechaEntrada && c.fechaSalida == r.fechaSalida
  {
    if r.id == id then Cancelled(r, reembolso) else r
  }

  /**
   * The local update after a successful cancellation: the reservations with
   * that id become cancelled (and refunded when the backend says so); every
   * other reservation, the length and the order stay as they were.
   */
  function CancelUpdate(rs: seq<Reserva>, id: int, reembolso: bool): (r: seq<Reserva>)
    ensures |r| == |rs|
    ensures forall i :: 0 <= i < |rs| ==> r[i] == CancelOne(rs[i], id, reembolso)
  {
    if rs == [] then []
    else [CancelOne(rs[0], id, reembolso)] + CancelUpdate(rs[1..], id, reembolso)
  }

  /** Once cancelled, a reservation can no longer be cancelled, whatever the time. */
  lemma CancelledCannotBeCancelledAgain(rs: seq<Reserva>, id: int, reembolso: bool, now: int)
    ensures forall i :: 0 <= i < |rs| && rs[i].id == id ==>
              !PuedeCancelar(CancelUpdate(rs, id, reembolso)[i].estado, CancelUpdate(rs, id, reembolso)[i].fechaEntrada, now)
  {
  }

  /** Cancelling the same id twice is cancelling it once. */
  lemma {:induction false} CancelUpdateIdempotent(rs: seq<Reserva>, id: int, reembolso: bool)
    ensures CancelUpdate(CancelUpdate(rs, id, reembolso), id, reembolso) == CancelUpdate(rs, id, reembolso)
    decreases |rs|
  {
    if rs != [] {
      CancelUpdateIdempotent(rs[1..], id, reembolso);
      assert CancelUpdate(rs, id, reembolso)[1..] == CancelUpdate(rs[1..], id, reembolso);
    }
  }

  /** A cancellation for an id not in the list changes nothing. */
  lemma {:induction false} CancelAbsentId(rs: seq<Reserva>, id: int, reembolso: bool)
    requires forall i :: 0 <= i < |rs| ==> rs[i].id != id
    ensures CancelUpdate(rs, id, reembolso) == rs
    decreases |rs|
  {
    if rs != [] {
      CancelAbsentId(rs[1..], id, reembolso);
    }
  }

  /** `getEstadoBadge`: text colour of the badge; unknown states get the grey fallback. */
  function BadgeColor(estado: string): (c: string)
    ensures c == "#666" <==> estado !in {"confirmada", "pendiente", "cancelada", "completada"}
  {
    match estado
    case "confirmada" => "#2e7d32"
    case "pendiente" => "#ff9800"
    case "cancelada" => "#d32f2f"
    case "completada" => "#1976d2"
    case _ => "#666"
  }

  /** The "s" of "Reserva(s) Encontrada(s)". */
  function Plural(n: int): (s: string)
    ensures s == "s" <==> n != 1
    ensures s == "" <==> n == 1
  {
    if n != 1 then "s" else ""
  }

  /** The "Reembolsado" note of a card. */
  predicate ShowsRefund(r: Reserva) {
    r.estado == "cancelada" && r.estadoPago == "reembolsado"
  }

  /** A refunded cancellation shows the note, an unrefunded one keeps its payment state. */
  lemma RefundNoteAfterCancel(rs: seq<Reserva>, id: int, reembolso: bool)
    ensures forall i :: 0 <= i < |rs| && rs[i].id == id ==>
              (ShowsRefund(CancelUpdate(rs, id, reembolso)[i]) <==> reembolso || rs[i].estadoPago == "reembolsado")
  {
  }

  class MyBookings {
    var email: string
    var reservas: seq<Reserva>
    var loading: bool
    var error: string

    constructor ()
      ensures email == "" && reservas == [] && !loading && error == ""
    {
      email := "";
      reservas := [];
      loading := false;
      error := "";
    }

    /** The list with its heading is shown exactly when there are reservations. */
    predicate ShowsList()
      reads this
    {
      |reservas| > 0
    }

    /** "No se encontraron reservas": empty list, not loading, and an e-mail typed. */
    predicate ShowsNoResults()
      reads this
    {
      |reservas| == 0 && !loading && email != ""
    }

    /** The list and the "no results" note are never shown together. */
    lemma ListOrNoResults()
      ensures !(ShowsList() && ShowsNoResults())
      ensures email != "" && !loading ==> ShowsList() || ShowsNoResults()
    {
    }

    /** The e-mail input: the typed text becomes the e-mail searched for. */
    method SetEmail(value: string)
      modifies this`email
      ensures email == value
    {
      email := value;
    }

    /**
     * The body of `buscarReservas` for the e-mail `who` its closure sees.
     * Without an e-mail it only sets the error. Otherwise the list is
     * replaced on success; a non-ok status or a failed fetch gives the
     * connection message, an answer without success its error or the
     * default text.
     */
    method Search(who: string, reply: Reply<seq<Reserva>>) returns (sent: bool)
      modifies this`reservas, this`loading, this`error
      ensures sent <==> who != ""
      ensures !sent ==> error == MsgEmailRequired && reservas == old(reservas) && loading == old(loading)
      ensures sent ==> !loading
      ensures sent && reply.Succeeded() ==> reservas == reply.data && error == ""
      ensures sent && !reply.Succeeded() ==> reservas == old(reservas)
      ensures sent && (reply.Thrown? || !reply.ok) ==> error == MsgConnection
      ensures sent && reply.Answered? && reply.ok && !reply.success ==> error == OrElse(reply.error, MsgSearchFailed)
    {
      if who == "" {
        error := MsgEmailRequired;
        return false;
      }
      sent := true;
      loading := true;
      error := "";
      if reply.Thrown? || !reply.ok {
        error := MsgConnection;
      } else if reply.success {
        reservas := reply.data;
      } else {
        error := OrElse(reply.error, MsgSearchFailed);
      }
      loading := false;
    }

    /** `buscarReservas` from the search form: it searches for the e-mail typed. */
    method BuscarReservas(reply: Reply<seq<Reserva>>) returns (sent: bool)
      modifies this`reservas, this`loading, this`error
      ensures sent <==> email != ""
      ensures !sent ==> error == MsgEmailRequired && reservas == old(reservas) && loading == old(loading)
      ensures sent ==> !loading
      ensures sent && reply.Succeeded() ==> reservas == reply.data && error == ""
      ensures sent && !reply.Succeeded() ==> reservas == old(reservas)
      ensures sent && (reply.Thrown? || !reply.ok) ==> error == MsgConnection
      ensures sent && reply.Answered? && reply.ok && !reply.success ==> error == OrElse(reply.error, MsgSearchFailed)
    {
      sent := Search(email, reply);
    }

    /**
     * The mount effect as written. `userEmail` is the stored user's `email`,
     * "" when there is no stored user or it has none. With one, the e-mail
     * is set and, after the delay, `buscarReservas` runs; but that function
     * is the one of the render the effect belongs to, whose closure still
     * holds the e-mail the page had before, so it searches for that one.
     */
    method MountAsWritten(userEmail: string, reply: Reply<seq<Reserva>>) returns (sent: bool)
      modifies this`email, this`reservas, this`loading, this`error
      ensures userEmail == "" ==>
        && !sent && email == old(email) && reservas == old(reservas)
        && loading == old(loading) && error == old(error)
      ensures userEmail != "" ==> email == userEmail
      ensures sent <==> userEmail != "" && old(email) != ""
      ensures userEmail != "" && old(email) == "" ==> error == MsgEmailRequired && reservas == old(reservas)
    {
      var closure := email;
      if userEmail == "" {
        return false;
      }
      email := userEmail;
      sent := Search(closure, reply);
    }

    /**
     * The mount effect as evidently intended: with a stored e-mail, that
     * e-mail is searched for.
     */
    method MountIntended(userEmail: string, reply: Reply<seq<Reserva>>) returns (sent: bool)
      modifies this`email, this`reservas, this`loading, this`error
      ensures userEmail == "" ==>
        && !sent && email == old(email) && reservas == old(reservas)
        && loading == old(loading) && error == old(error)
      ensures userEmail != "" ==> email == userEmail && sent && !loading
      ensures userEmail != "" && reply.Succeeded() ==> reservas == reply.data && error == ""
      ensures userEmail != "" && !reply.Succeeded() ==> reservas == old(reservas) && error != ""
    {
      if userEmail == "" {
        return false;
      }
      email := userEmail;
      sent := Search(email, reply);
    }

    /**
     * `cancelarReserva`. Nothing happens unless the guest confirms. The list
     * changes only when the backend answers ok with success; `reply.data` is
     * its `reembolso` flag.
     */
    method CancelarReserva(id: int, confirmed: bool, reply: Reply<bool>) returns (sent: bool)
      modifies this`reservas
      ensures sent <==> confirmed
      ensures sent && reply.Succeeded() ==> reservas == CancelUpdate(old(reservas), id, reply.data)
      ensures !(sent && reply.Succeeded()) ==> reservas == old(reservas)
    {
      if !confirmed {
        return false;
      }
      sent := true;
      if reply.Succeeded() {
        reservas := CancelUpdate(reservas, id, reply.data);
      }
    }
  }

  /**
   * A signed-in guest opens the page: as written, the e-mail appears in the
   * field but nothing is loaded and the page asks for an e-mail, whatever
   * the backend would have answered.
   */
  method SignedInVisitAsWritten(userEmail: string, reply: Reply<seq<Reserva>>) returns (page: MyBookings, sent: bool)
    requires userEmail != ""
    ensures page.email == userEmail && !sent
    ensures page.error == MsgEmailRequired && page.reservas == []
  {
    page := new MyBookings();
    sent := page.MountAsWritten(userEmail, reply);
  }

  /** The same visit as intended: the guest's reservations are loaded. */
  method SignedInVisitIntended(userEmail: string, reply: Reply<seq<Reserva>>) returns (page: MyBookings, sent: bool)
    requires userEmail != ""
    ensures page.email == userEmail && sent && !page.loading
    ensures reply.Succeeded() ==> page.reservas == reply.data && page.error == ""
    ensures !reply.Succeeded() ==> page.reservas == [] && page.error != ""
  {
    page := new MyBookings();
    sent := page.MountIntended(userEmail, reply);
  }
}
