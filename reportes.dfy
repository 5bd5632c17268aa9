/**
 * The administrator's reports: a report type and a date range produce one
 * request; the answer is drawn as charts when it holds data for that type.
 */
module Reportes {
  import opened Text
  import opened Wrappers
  import opened Backend

  const MsgRangeRequired := "Por favor seleccione un rango de fechas"
  const MsgRangeOrder := "La fecha de inicio no puede ser mayor a la fecha fin"
  const MsgReportPrefix := "Error al generar el reporte: "

  const Colors: seq<string> := ["#0088FE", "#00C49F", "#FFBB28", "#FF8042", "#8884D8", "#82CA9D"]

  datatype Nacionalidad = Nacionalidad(nacionalidad: string, totalClientes: int)

  /**
   * The `data` of a report: the sales report is an array of rows (only its
   * length matters here); the other reports are objects whose lists may be
   * missing.
   */
  datatype ReportData =
    | ArrayData(length: nat)
    | ObjectData(ocupacionTipo: Option<seq<string>>, clientesNacionalidad: Option<seq<Nacionalidad>>)

  /** The `periodo` parameter: the chosen one only for the sales report. */
  function PeriodoParam(tipoReporte: string, periodo: string): (p: string)
    ensures tipoReporte == "ventas-ingresos" ==> p == periodo
    ensures tipoReporte != "ventas-ingresos" ==> p == "mensual"
  {
    if tipoReporte == "ventas-ingresos" then periodo else "mensual"
  }

  /** `tieneDatos`: whether the report of this type has anything to draw. */
  predicate TieneDatos(tipoReporte: string, datos: ReportData) {
    (tipoReporte == "ventas-ingresos" && datos.ArrayData? && datos.length > 0)
    || (tipoReporte == "ocupacion-rendimiento" && datos.ObjectData? && datos.ocupacionTipo.Some?
        && |datos.ocupacionTipo.value| > 0)
    || (tipoReporte == "clientes-fidelizacion" && datos.ObjectData? && datos.clientesNacionalidad.Some?
        && |datos.clientesNacionalidad.value| > 0)
  }

  /** Only the three known report types can have data, and only from the matching shape. */
  lemma TieneDatosShape(tipoReporte: string, datos: ReportData)
    requires TieneDatos(tipoReporte, datos)
    ensures tipoReporte in {"ventas-ingresos", "ocupacion-rendimiento", "clientes-fidelizacion"}
    ensures datos.ArrayData? <==> tipoReporte == "ventas-ingresos"
    ensures tipoReporte == "clientes-fidelizacion" ==> |TopNacionalidades(datos.clientesNacionalidad.value)| > 0
  {
  }

  /** The pie chart's slices: at most the first six nationalities, in order. */
  function TopNacionalidades(list: seq<Nacionalidad>): (top: seq<Nacionalidad>)
    ensures |top| == if |list| < 6 then |list| else 6
    ensures top == list[..|top|]
  {
    if |list| <= 6 then list else list[..6]
  }

  /** `COLORS[index % COLORS.length]` */
  function SliceColor(index: nat): (c: string)
    ensures c == Colors[index % 6]
  {
    Colors[index % |Colors|]
  }

  /** The slices drawn never share a colour. */
  lemma SlicesHaveDistinctColors(list: seq<Nacionalidad>)
    ensures forall i, j :: 0 <= i < j < |TopNacionalidades(list)| ==> SliceColor(i) != SliceColor(j)
  {
    forall i, j | 0 <= i < j < |TopNacionalidades(list)|
      ensures SliceColor(i) != SliceColor(j)
    {
      assert i % 6 == i && j % 6 == j;
    }
  }

  /** The request of a report. */
  function ReportRequest(tipoReporte: string, periodo: string, fechaInicio: string, fechaFin: string): (r: Request)
    ensures r.url == "/api/reportes/" + tipoReporte
    ensures r.params == [("periodo", PeriodoParam(tipoReporte, periodo)), ("fechaInicio", fechaInicio), ("fechaFin", fechaFin)]
  {
    Request("GET", "/api/reportes/" + tipoReporte,
            [("periodo", PeriodoParam(tipoReporte, periodo)), ("fechaInicio", fechaInicio), ("fechaFin", fechaFin)])
  }

  class ReportPage {
    var tipoReporte: string
    var periodo: string
    var fechaInicio: string
    var fechaFin: string
    var datos: Option<ReportData>
    var estadisticas: map<string, string>
    var cargando: bool
    var error: string

    constructor (fechaInicio: string, fechaFin: string)
      ensures tipoReporte == "ventas-ingresos" && periodo == "mensual"
      ensures this.fechaInicio == fechaInicio && this.fechaFin == fechaFin
      ensures datos == None && estadisticas == map[] && !cargando && error == ""
    {
      tipoReporte, periodo := "ventas-ingresos", "mensual";
      this.fechaInicio, this.fechaFin := fechaInicio, fechaFin;
      datos := None;
      estadisticas := map[];
      cargando := false;
      error := "";
    }

    /**
     * `generarReporte`. `inicioMs` and `finMs` are the instants of the two
     * dates. Both must be set and the start must not come after the end
     * (equal dates are accepted). A report in progress starts from no data,
     * no statistics and no error; the data and statistics are set only by
     * an ok answer reporting success, and every failure is reported with the
     * common prefix.
     */
    method GenerarReporte(inicioMs: int, finMs: int, reply: Reply<(ReportData, map<string, string>)>)
      returns (req: Option<Request>)
      modifies this`datos, this`estadisticas, this`cargando, this`error
      ensures req.Some? <==> fechaInicio != "" && fechaFin != "" && inicioMs <= finMs
      ensures (fechaInicio == "" || fechaFin == "") ==> error == MsgRangeRequired
      ensures fechaInicio != "" && fechaFin != "" && inicioMs > finMs ==> error == MsgRangeOrder
      ensures req.None? ==> datos == old(datos) && estadisticas == old(estadisticas) && cargando == old(cargando)
      ensures req.Some? ==> req.value == ReportRequest(tipoReporte, periodo, fechaInicio, fechaFin) && !cargando
      ensures req.Some? && reply.Succeeded() ==> datos == Some(reply.data.0) && estadisticas == reply.data.1 && error == ""
      ensures req.Some? && !reply.Succeeded() ==> datos == None && estadisticas == map[]
      ensures req.Some? && reply.Thrown? ==> error == MsgReportPrefix + reply.message
      ensures req.Some? && reply.Answered? && !reply.ok ==>
                error == MsgReportPrefix + OrElse(reply.error, "Error HTTP: " + ShowInt(reply.status))
      ensures req.Some? && reply.Answered? && reply.ok && !reply.success ==>
                error == MsgReportPrefix + OrElse(reply.error, "Error en el servidor")
    {
      if fechaInicio == "" || fechaFin == "" {
        error := MsgRangeRequired;
        return None;
      }
      if inicioMs > finMs {
        error := MsgRangeOrder;
        return None;
      }
      cargando := true;
      datos := None;
      estadisticas := map[];
      error := "";
      req := Some(ReportRequest(tipoReporte, periodo, fechaInicio, fechaFin));
      match reply {
        case Thrown(m) =>
          error := MsgReportPrefix + m;
        case Answered(ok, status, _, success, err, data) =>
          if !ok {
            error := MsgReportPrefix + OrElse(err, "Error HTTP: " + ShowInt(status));
          } else if success {
            datos := Some(data.0);
            estadisticas := data.1;
          } else {
            error := MsgReportPrefix + OrElse(err, "Error en el servidor");
          }
      }
      cargando := false;
    }

    /** Choosing another report type drops the drawn data and the error. */
    method CambiarTipo(tipo: string)
      modifies this`tipoReporte, this`datos, this`error
      ensures tipoReporte == tipo && datos == None && error == ""
    {
      tipoReporte := tipo;
      datos := None;
      error := "";
    }
  }
}
