/** The report list of src/pages/admin/AdminReportes.jsx: page navigation
    with clamping, the search box, the one-line summary of a result, and the
    detail modal. */
module AdminReportes {
  import opened JsText
  import opened Ui

  /** What a patient's use of a resource recorded: for content whether it was
      seen and when (already rendered by `toLocaleString`), for a
      questionnaire the answers, None when `respuestas` is not an array. */
  datatype Resultado = Resultado(visto: bool, fecha: Option<string>, respuestas: Option<seq<string>>)

  datatype Reporte = Reporte(id: string, tipo: string, resultado: Option<Resultado>)

  /** The summary cell: "Visto"/"No visto" and the date for content,
      "Respuestas: n" otherwise. */
  function Resumen(rep: Reporte): (r: string)
  {
    if rep.tipo == "contenido" then
      (if rep.resultado.Some? && rep.resultado.value.visto then "Visto" else "No visto") +
      (if rep.resultado.Some? && Truthy(rep.resultado.value.fecha) then " - " + rep.resultado.value.fecha.value else "")
    else
      "Respuestas: " + NatToDecimal(RespuestasCount(rep))
  }

  /** `Array.isArray(rep.resultado?.respuestas) ? length : 0`. */
  function RespuestasCount(rep: Reporte): nat
  {
    if rep.resultado.Some? && rep.resultado.value.respuestas.Some? then |rep.resultado.value.respuestas.value| else 0
  }

  /** The content summary starts with "Visto" exactly when the result says
      seen; otherwise with "No visto". */
  lemma ResumenContenido(rep: Reporte)
    requires rep.tipo == "contenido"
    ensures var r := Resumen(rep);
            var seen := rep.resultado.Some? && rep.resultado.value.visto;
            && (|r| >= 5 && r[..5] == "Visto" <==> seen)
            && (!seen ==> |r| >= 8 && r[..8] == "No visto")
  {
    var r := Resumen(rep);
    var fecha := if rep.resultado.Some? && Truthy(rep.resultado.value.fecha) then " - " + rep.resultado.value.fecha.value else "";
    if rep.resultado.Some? && rep.resultado.value.visto {
      assert r == "Visto" + fecha;
      assert r[..5] == "Visto";
    } else {
      assert r == "No visto" + fecha;
      assert r[..8] == "No visto";
      assert r[..5] == "No vi";
    }
  }

  /** The questionnaire summary is "Respuestas: " followed by the decimal
      count, which reads back as the number of answers (0 when not an array). */
  lemma ResumenCuestionario(rep: Reporte)
    requires rep.tipo != "contenido"
    ensures var r := Resumen(rep);
            && |r| > 12 && r[..12] == "Respuestas: "
            && DecimalValue(r[12..]) == RespuestasCount(rep)
  {
    var digits := NatToDecimal(RespuestasCount(rep));
    assert Resumen(rep)[12..] == digits;
    DecimalRoundTrip(RespuestasCount(rep));
  }

  /** The page response: `data.items` and `data.totalPages` may be missing (or 0). */
  datatype PageResponse = PageResponse(items: Option<seq<Reporte>>, totalPages: Option<int>)

  /** `data.totalPages || 1`. */
  function TotalPagesOf(resp: PageResponse): (t: int)
    ensures resp.totalPages.None? || resp.totalPages == Some(0) ==> t == 1
    ensures resp.totalPages.Some? && resp.totalPages.value != 0 ==> t == resp.totalPages.value
  {
    match resp.totalPages
    case None => 1
    case Some(n) => if n == 0 then 1 else n
  }

  class Page {
    var loading: bool
    var reportes: seq<Reporte>
    var search: string
    var page: int
    var totalPages: int
    var showModal: bool
    var detalle: Option<Reporte>
    var toast: Option<Toast>

    /** The page number lies within the known pages. */
    predicate PageInRange()
      reads this
    {
      1 <= page <= totalPages
    }

    constructor ()
      ensures !loading && reportes == [] && search == "" && page == 1 && totalPages == 1
      ensures !showModal && detalle == None && toast == None
      ensures PageInRange()
    {
      loading, reportes, search, page, totalPages := false, [], "", 1, 1;
      showModal, detalle, toast := false, None, None;
    }

    /** "Anterior": `Math.max(1, p - 1)`. */
    method Anterior()
      modifies this`page
      ensures page == if old(page) - 1 > 1 then old(page) - 1 else 1
      ensures page >= 1
      ensures old(PageInRange()) ==> PageInRange()
    {
      page := if page - 1 > 1 then page - 1 else 1;
    }

    /** "Siguiente": `Math.min(totalPages, p + 1)`. */
    method Siguiente()
      modifies this`page
      ensures page == if old(page) + 1 < totalPages then old(page) + 1 else totalPages
      ensures page <= totalPages
      ensures old(PageInRange()) ==> PageInRange()
    {
      page := if page + 1 < totalPages then page + 1 else totalPages;
    }

    /** Typing in the search box goes back to the first page. */
    method SetSearch(s: string)
      modifies this`search, this`page
      ensures search == s && page == 1
      ensures totalPages >= 1 ==> PageInRange()
    {
      search := s;
      page := 1;
    }

    /** `fetchReportes` once the request settles; loading ends either way. */
    method Loaded(response: Option<PageResponse>)
      modifies this`reportes, this`totalPages, this`loading, this`toast
      ensures !loading
      ensures response.Some? ==>
                && reportes == (match response.value.items case Some(items) => items case None => [])
                && totalPages == TotalPagesOf(response.value)
                && toast == old(toast)
      ensures response.None? ==>
                reportes == old(reportes) && totalPages == old(totalPages) &&
                toast == Some(ErrorToast("Error cargando reportes"))
    {
      match response {
        case Some(resp) =>
          reportes := match resp.items case Some(items) => items case None => [];
          totalPages := TotalPagesOf(resp);
        case None =>
          toast := Some(ErrorToast("Error cargando reportes"));
      }
      loading := false;
    }

    /** `handleVerDetalle(rep)`. */
    method VerDetalle(rep: Reporte)
      modifies this`detalle, this`showModal
      ensures detalle == Some(rep) && showModal
    {
      detalle := Some(rep);
      showModal := true;
    }

    /** `closeModal`: hidden and cleared. */
    method CloseModal()
      modifies this`detalle, this`showModal
      ensures detalle == None && !showModal
    {
      showModal := false;
      detalle := None;
    }
  }
}
