/** The patient's resource page of src/pages/paciente/UtilizarRecurso.jsx:
    the type filter, the detail modal and its answers, the submitted answer
    list, and how a content URL is shown. */
module UtilizarRecurso {
  import opened JsText
  import opened Ui

  datatype Recurso = Recurso(id: string, tipo: string, titulo: string)

  /** The outcome of `GET /pacientes/recurso/lista`: a body that may be null, or an error. */
  datatype FetchOutcome = Fetched(data: Option<seq<Recurso>>) | FetchFailed

  datatype PreguntaDetalle = PreguntaDetalle(id: string, texto: string, tipoRespuesta: string, opciones: seq<string>)

  /** The populated reference: a content's url/tipo/fuente or a questionnaire's questions. */
  datatype Referencia = Referencia(id: Option<string>, url: Option<string>, tipo: Option<string>,
                                   fuente: Option<string>, preguntas: Option<seq<PreguntaDetalle>>)

  datatype Detalle = Detalle(tipo: string, referencia: Option<Referencia>)

  /** `recursosFiltrados`: all for "todos", else exactly the resources of that type, in order. */
  function Filtrados(recursos: seq<Recurso>, filtroTipo: string): (r: seq<Recurso>)
    ensures filtroTipo == "todos" ==> r == recursos
    ensures filtroTipo != "todos" ==> forall k :: 0 <= k < |r| ==> r[k].tipo == filtroTipo
    ensures filtroTipo != "todos" ==>
              forall j :: 0 <= j < |recursos| && recursos[j].tipo == filtroTipo ==> recursos[j] in r
    ensures filtroTipo != "todos" ==>
              forall x :: multiset(r)[x] == if x.tipo == filtroTipo then multiset(recursos)[x] else 0
    ensures IsSubsequence(r, recursos)
  {
    if filtroTipo == "todos" then
      SubsequenceReflexive(recursos);
      recursos
    else
      var ofType := (x: Recurso) => x.tipo == filtroTipo;
      FilterByCounts(recursos, ofType);
      FilterBy(recursos, ofType)
  }

  datatype Respuesta = Respuesta(preguntaId: string, respuesta: string)

  /** `respuestas[id] || ""`. */
  function AnswerFor(respuestas: map<string, string>, id: string): string
  {
    if id in respuestas then respuestas[id] else ""
  }

  /** `respuestasArray`: one entry per question, in question order. */
  function RespuestasArray(preguntas: seq<PreguntaDetalle>, respuestas: map<string, string>): (r: seq<Respuesta>)
    ensures |r| == |preguntas|
    ensures forall i :: 0 <= i < |r| ==> r[i].preguntaId == preguntas[i].id
    ensures forall i :: 0 <= i < |r| ==> r[i].respuesta == AnswerFor(respuestas, preguntas[i].id)
  {
    if preguntas == [] then []
    else [Respuesta(preguntas[0].id, AnswerFor(respuestas, preguntas[0].id))] + RespuestasArray(preguntas[1..], respuestas)
  }

  /** Answering question q changes only the entries of the submitted list for q. */
  lemma {:induction false} AnswerChangesOnlyItsEntries(preguntas: seq<PreguntaDetalle>, respuestas: map<string, string>,
                                                       q: string, value: string)
    ensures var before := RespuestasArray(preguntas, respuestas);
            var after := RespuestasArray(preguntas, respuestas[q := value]);
            && |after| == |before|
            && forall i :: 0 <= i < |after| ==>
                 after[i] == (if preguntas[i].id == q then Respuesta(q, value) else before[i])
  {
    if preguntas != [] {
      AnswerChangesOnlyItsEntries(preguntas[1..], respuestas, q, value);
    }
  }

  /** The questions of a detail: `detalle.referencia?.preguntas || []`. */
  function PreguntasDe(d: Detalle): seq<PreguntaDetalle>
  {
    if d.referencia.Some? && d.referencia.value.preguntas.Some? then d.referencia.value.preguntas.value else []
  }

  /** The body of `POST /pacientes/recurso/utilizar`. */
  datatype Envio = VistoEnvio(recursoId: string) | CuestionarioEnvio(recursoId: string, respuestas: seq<Respuesta>)

  /** How a content is shown. */
  datatype Vista = Iframe(src: string) | Video(src: string) | Enlace(href: string)

  /** A YouTube page URL becomes its embed URL: the first "watch?v=" becomes "embed/". */
  function EmbedSrc(url: string): string
  {
    ReplaceFirst(url, "watch?v=", "embed/")
  }

  /** A "video" whose URL mentions "youtube" is embedded; other videos play
      in a video element; other kinds are a link. */
  function VistaContenido(tipo: Option<string>, url: string): (v: Vista)
    ensures tipo == Some("video") && Contains(url, "youtube") ==> v == Iframe(EmbedSrc(url))
    ensures tipo == Some("video") && !Contains(url, "youtube") ==> v == Video(url)
    ensures tipo != Some("video") ==> v == Enlace(url)
  {
    if tipo == Some("video") then
      (if Contains(url, "youtube") then Iframe(EmbedSrc(url)) else Video(url))
    else Enlace(url)
  }

  /** For a URL `prefix + "watch?v=" + id` whose first "watch?v=" is that one,
      the embed URL is `prefix + "embed/" + id`: the video id is kept. */
  lemma EmbedKeepsVideoId(prefix: string, id: string)
    requires forall j :: 0 <= j < |prefix| ==> !OccursAt(prefix + "watch?v=" + id, "watch?v=", j)
    ensures EmbedSrc(prefix + "watch?v=" + id) == prefix + "embed/" + id
  {
    var url := prefix + "watch?v=" + id;
    assert OccursAt(url, "watch?v=", |prefix|) by {
      assert url[|prefix|..|prefix| + 8] == "watch?v=";
    }
    assert IndexOf(url, "watch?v=") == Some(|prefix|);
    assert url[..|prefix|] == prefix;
    assert url[|prefix| + 8..] == id;
  }

  class Page {
    var recursos: seq<Recurso>
    var cargando: bool
    var filtroTipo: string
    var seleccionado: Option<Recurso>
    var detalle: Option<Detalle>
    var respuestas: map<string, string>
    var toast: Option<Toast>

    constructor ()
      ensures recursos == [] && cargando && filtroTipo == "todos"
      ensures seleccionado == None && detalle == None && respuestas == map[] && toast == None
    {
      recursos, cargando, filtroTipo := [], true, "todos";
      seleccionado, detalle, respuestas, toast := None, None, map[], None;
    }

    /** `loadRecursos` once the request settles; loading ends either way. */
    method Loaded(outcome: FetchOutcome)
      modifies this`recursos, this`cargando, this`toast
      ensures !cargando
      ensures outcome.Fetched? && outcome.data.Some? ==> recursos == outcome.data.value && toast == old(toast)
      ensures outcome.Fetched? && outcome.data.None? ==> recursos == [] && toast == old(toast)
      ensures outcome.FetchFailed? ==>
                recursos == old(recursos) && toast == Some(ErrorToast("No se pudo cargar recursos"))
    {
      match outcome {
        case Fetched(data) =>
          recursos := match data case Some(rs) => rs case None => [];
        case FetchFailed =>
          toast := Some(ErrorToast("No se pudo cargar recursos"));
      }
      cargando := false;
    }

    /** The list shown for the selected type. */
    function Shown(): (r: seq<Recurso>)
      reads this
      ensures IsSubsequence(r, recursos)
    {
      Filtrados(recursos, filtroTipo)
    }

    /** `abrirModal(recurso)` before its request: select it and forget the previous detail and answers. */
    method AbrirModal(recurso: Recurso)
      modifies this`seleccionado, this`detalle, this`respuestas
      ensures seleccionado == Some(recurso) && detalle == None && respuestas == map[]
    {
      seleccionado := Some(recurso);
      respuestas := map[];
      detalle := None;
    }

    /** The detail request of `abrirModal` settles. */
    method DetalleCargado(data: Option<Detalle>)
      modifies this`detalle, this`toast
      ensures data.Some? ==> detalle == data && toast == old(toast)
      ensures data.None? ==> detalle == old(detalle) && toast == Some(ErrorToast("No se pudo cargar el recurso"))
    {
      if data.Some? {
        detalle := data;
      } else {
        toast := Some(ErrorToast("No se pudo cargar el recurso"));
      }
    }

    /** `cerrarModal`. */
    method CerrarModal()
      modifies this`seleccionado, this`detalle, this`respuestas
      ensures seleccionado == None && detalle == None && respuestas == map[]
    {
      seleccionado := None;
      detalle := None;
      respuestas := map[];
    }

    /** `handleChange(preguntaId, value)`: only that key changes. */
    method Responder(preguntaId: string, value: string)
      modifies this`respuestas
      ensures respuestas == old(respuestas)[preguntaId := value]
    {
      respuestas := respuestas[preguntaId := value];
    }

    /** `enviarCuestionario`: nothing without a selection and a detail; else
        the request, whose success `ok` closes the modal. */
    method EnviarCuestionario(ok: bool) returns (sent: Option<Envio>)
      modifies this`seleccionado, this`detalle, this`respuestas
      ensures old(seleccionado).None? || old(detalle).None? ==>
                sent.None? && unchanged(this)
      ensures old(seleccionado).Some? && old(detalle).Some? ==>
                && sent == Some(CuestionarioEnvio(old(seleccionado).value.id,
                                                  RespuestasArray(PreguntasDe(old(detalle).value), old(respuestas))))
                && (ok ==> seleccionado == None && detalle == None && respuestas == map[])
                && (!ok ==> unchanged(this))
    {
      if seleccionado.None? || detalle.None? {
        return None;
      }
      sent := Some(CuestionarioEnvio(seleccionado.value.id, RespuestasArray(PreguntasDe(detalle.value), respuestas)));
      if ok {
        CerrarModal();
      }
    }

    /** `marcarVisto`: nothing without a selection; else the request, whose
        success `ok` closes the modal. */
    method MarcarVisto(ok: bool) returns (sent: Option<Envio>)
      modifies this`seleccionado, this`detalle, this`respuestas
      ensures old(seleccionado).None? ==> sent.None? && unchanged(this)
      ensures old(seleccionado).Some? ==>
                && sent == Some(VistoEnvio(old(seleccionado).value.id))
                && (ok ==> seleccionado == None && detalle == None && respuestas == map[])
                && (!ok ==> unchanged(this))
    {
      if seleccionado.None? {
        return None;
      }
      sent := Some(VistoEnvio(seleccionado.value.id));
      if ok {
        CerrarModal();
      }
    }
  }
}
