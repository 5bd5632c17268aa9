/**
 * The administrator's ad-hoc queries: one of five query types over a date
 * range, answered by the backend as a table.
 */
module Consultas {
  import opened Text
  import opened Wrappers
  import opened Backend

  const MsgDatesRequired := "Las fechas inicio y fin son obligatorias"
  const MsgPrefix := "Error al ejecutar la consulta: "
  const MsgUnknownType := "Tipo de consulta no válido"

  const QueryTypes: seq<string> :=
    ["reservas-por-fecha", "ocupacion-habitacion", "clientes-frecuentes", "ingresos-periodo", "habitaciones-populares"]

  /** One row of a result table. */
  type Row = map<string, string>

  const ApiBase := "/api/consultas/"

  /** The endpoint of a query type; an unknown type has none. */
  function Endpoint(tipo: string): (url: Option<string>)
    ensures url.Some? <==> tipo in QueryTypes
    ensures url.Some? ==> url.value == ApiBase + tipo
  {
    match tipo
    case "reservas-por-fecha" => Some(ApiBase + "reservas-por-fecha")
    case "ocupacion-habitacion" => Some(ApiBase + "ocupacion-habitacion")
    case "clientes-frecuentes" => Some(ApiBase + "clientes-frecuentes")
    case "ingresos-periodo" => Some(ApiBase + "ingresos-periodo")
    case "habitaciones-populares" => Some(ApiBase + "habitaciones-populares")
    case _ => None
  }

  /** Different query types never share an endpoint. */
  lemma EndpointsDistinct(t1: string, t2: string)
    requires Endpoint(t1).Some? && Endpoint(t2).Some? && t1 != t2
    ensures Endpoint(t1).value != Endpoint(t2).value
  {
    assert Endpoint(t1).value[|ApiBase|..] == t1;
    assert Endpoint(t2).value[|ApiBase|..] == t2;
  }

  /** The query string: both dates, then the room only for reservations by date and only when given. */
  function QueryParams(tipo: string, fechaInicio: string, fechaFin: string, habitacion: string): (ps: seq<(string, string)>)
    ensures |ps| >= 2 && ps[..2] == [("fechaInicio", fechaInicio), ("fechaFin", fechaFin)]
    ensures |ps| == 3 <==> tipo == "reservas-por-fecha" && habitacion != ""
    ensures |ps| == 2 || (|ps| == 3 && ps[2] == ("habitacion", habitacion))
  {
    var base := [("fechaInicio", fechaInicio), ("fechaFin", fechaFin)];
    if tipo == "reservas-por-fecha" && habitacion != "" then base + [("habitacion", habitacion)] else base
  }

  /** The CSS class of a percentage, from the two thresholds of its column. */
  function PercentClass(p: real, high: real, medium: real): string {
    if p > high then "alto" else if p > medium then "medio" else "bajo"
  }

  /** Occupancy: above 70 is high, above 30 medium. */
  function OcupacionClass(p: real): (c: string)
    ensures c == "alto" <==> p > 70.0
    ensures c == "medio" <==> 30.0 < p <= 70.0
    ensures c == "bajo" <==> p <= 30.0
  {
    PercentClass(p, 70.0, 30.0)
  }

  /** Share of reservations: above 15 is high, above 5 medium. */
  function ReservasClass(p: real): (c: string)
    ensures c == "alto" <==> p > 15.0
    ensures c == "medio" <==> 5.0 < p <= 15.0
    ensures c == "bajo" <==> p <= 5.0
  {
    PercentClass(p, 15.0, 5.0)
  }

  function ClassRank(c: string): int {
    if c == "alto" then 2 else if c == "medio" then 1 else 0
  }

  /** A larger percentage never gets a lower class. */
  lemma PercentClassMonotone(p: real, q: real, high: real, medium: real)
    requires p <= q
    ensures ClassRank(PercentClass(p, high, medium)) <= ClassRank(PercentClass(q, high, medium))
  {
  }

  /** `formatearFecha`: a missing or empty date shows "N/A" (here `None`); others go to the locale formatter. */
  function FechaShown(fecha: Option<string>): (r: Option<string>)
    ensures r.None? <==> fecha.None? || fecha.value == ""
    ensures r.Some? ==> r == fecha
  {
    if fecha.Some? && fecha.value != "" then fecha else None
  }

  /** A JSON amount as JavaScript sees it. */
  datatype Amount = Missing | NotANumber | Number(x: real)

  /**
   * `formatearMoneda`: "N/A" (here `None`) for a falsy amount other than
   * zero; otherwise the number handed to the currency formatter.
   */
  function MontoShown(monto: Amount): (r: Option<real>)
    ensures r.None? <==> !monto.Number?
    ensures monto.Number? ==> r == Some(monto.x)
  {
    match monto
    case Number(x) => Some(x)
    case _ => None
  }

  /** Zero is formatted as an amount, unlike the other falsy values. */
  lemma ZeroIsFormatted()
    ensures MontoShown(Number(0.0)) == Some(0.0)
    ensures MontoShown(Missing).None? && MontoShown(NotANumber).None?
  {
  }

  /** The message every failed status produces as the handler is written: the backend's text is never used. */
  function HttpErrorAsWritten(status: int, statusText: string, body: Option<string>): (m: string)
    ensures m == "Error " + ShowInt(status) + ": " + statusText
  {
    // the error built from `body` inside the `try` is caught by its own `catch`, which replaces it
    "Error " + ShowInt(status) + ": " + statusText
  }

  /**
   * The intended message of a failed status: the backend's `error` when the
   * body is JSON with a non-empty one, otherwise status and status text.
   */
  function HttpError(status: int, statusText: string, body: Option<string>): (m: string)
    ensures body.Some? && body.value != "" ==> m == body.value
    ensures body.None? || body.value == "" ==> m == "Error " + ShowInt(status) + ": " + statusText
  {
    match body
    case Some(e) => OrElse(e, "Error " + ShowInt(status) + ": " + statusText)
    case None => "Error " + ShowInt(status) + ": " + statusText
  }

  /** The written handler loses the backend's explanation that the intended one shows. */
  lemma BackendErrorLost()
    ensures HttpErrorAsWritten(400, "Bad Request", Some("Fecha inválida")) == "Error 400: Bad Request"
    ensures HttpError(400, "Bad Request", Some("Fecha inválida")) == "Fecha inválida"
  {
    assert ShowInt(400) == "400" by {
      assert ShowNat(4) == "4";
      assert ShowNat(40) == "40";
    }
  }

  /** The two agree exactly when the backend sends no usable message. */
  lemma AsWrittenAgreesWithoutMessage(status: int, statusText: string, body: Option<string>)
    ensures HttpErrorAsWritten(status, statusText, body) == HttpError(status, statusText, body)
        <==> body.None? || body.value == "" || body.value == "Error " + ShowInt(status) + ": " + statusText
  {
  }

  class QueryPage {
    var tipoConsulta: string
    var fechaInicio: string
    var fechaFin: string
    var habitacion: string
    var resultados: Option<seq<Row>>
    var cargando: bool
    var error: string

    constructor ()
      ensures tipoConsulta == "reservas-por-fecha" && fechaInicio == "" && fechaFin == "" && habitacion == ""
      ensures resultados == None && !cargando && error == ""
    {
      tipoConsulta := "reservas-por-fecha";
      fechaInicio, fechaFin, habitacion := "", "", "";
      resultados := None;
      cargando := false;
      error := "";
    }

    /**
     * `ejecutarConsulta`. Without both dates only the error is set. Otherwise
     * the results and the error are cleared, an unknown type fails before any
     * request, and the results are set only by an ok answer reporting
     * success; every failure is reported with the common prefix. A failed
     * status is reported as the handler is written: with the status line,
     * whatever `body`, the `error` field of its JSON body, holds.
     */
    method EjecutarConsulta(reply: Reply<seq<Row>>, body: Option<string>) returns (req: Option<Request>)
      modifies this`resultados, this`cargando, this`error
      ensures fechaInicio == "" || fechaFin == "" ==>
                req == None && error == MsgDatesRequired && resultados == old(resultados) && cargando == old(cargando)
      ensures fechaInicio != "" && fechaFin != "" ==> !cargando
      ensures req.Some? <==> fechaInicio != "" && fechaFin != "" && Endpoint(tipoConsulta).Some?
      ensures req.Some? ==> req.value == Request("GET", Endpoint(tipoConsulta).value,
                                                 QueryParams(tipoConsulta, fechaInicio, fechaFin, habitacion))
      ensures fechaInicio != "" && fechaFin != "" && Endpoint(tipoConsulta).None? ==>
                error == MsgPrefix + MsgUnknownType && resultados == None
      ensures req.Some? && reply.Succeeded() ==> resultados == Some(reply.data) && error == ""
      ensures req.Some? && !reply.Succeeded() ==> resultados == None
      ensures req.Some? && reply.Thrown? ==> error == MsgPrefix + reply.message
      ensures req.Some? && reply.Answered? && !reply.ok ==>
                error == MsgPrefix + HttpErrorAsWritten(reply.status, reply.statusText, body)
      ensures req.Some? && reply.Answered? && reply.ok && !reply.success ==>
                error == MsgPrefix + OrElse(reply.error, "Error en la consulta")
    {
      if fechaInicio == "" || fechaFin == "" {
        error := MsgDatesRequired;
        return None;
      }
      cargando := true;
      error := "";
      resultados := None;
      var url := Endpoint(tipoConsulta);
      if url.None? {
        error := MsgPrefix + MsgUnknownType;
        cargando := false;
        return None;
      }
      req := Some(Request("GET", url.value, QueryParams(tipoConsulta, fechaInicio, fechaFin, habitacion)));
      match reply {
        case Thrown(m) =>
          error := MsgPrefix + m;
        case Answered(ok, status, statusText, success, err, data) =>
          if !ok {
            error := MsgPrefix + HttpErrorAsWritten(status, statusText, body);
          } else if success {
            resultados := Some(data);
          } else {
            error := MsgPrefix + OrElse(err, "Error en la consulta");
          }
      }
      cargando := false;
    }

    /** Choosing another query type clears the results and the error. */
    method CambiarTipo(tipo: string)
      modifies this`tipoConsulta, this`resultados, this`error
      ensures tipoConsulta == tipo && resultados == None && error == ""
    {
      tipoConsulta := tipo;
      resultados := None;
      error := "";
    }

    /** `limpiarFiltros`: dates, room, results and error are reset; the query type stays. */
    method LimpiarFiltros()
      modifies this`fechaInicio, this`fechaFin, this`habitacion, this`resultados, this`error
      ensures fechaInicio == "" && fechaFin == "" && habitacion == "" && resultados == None && error == ""
    {
      fechaInicio, fechaFin, habitacion := "", "", "";
      resultados := None;
      error := "";
    }
  }
}
