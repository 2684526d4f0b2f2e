/** The resource builder of src/pages/admin/RecursosCrear.jsx: a form for
    "contenido" (a URL) or "cuestionario" (a list of questions, each with a
    list of options), its list handlers, the checks `handleSubmit` makes, and
    the payload it posts. */
module RecursosCrear {
  import opened JsText

  datatype Pregunta = Pregunta(texto: string, opciones: seq<string>, tipoRespuesta: string)

  datatype Contenido = Contenido(url: string, tipo: string, fuente: string)

  /** The question `handleAddPregunta` appends, and the form's first question. */
  const NuevaPregunta: Pregunta := Pregunta("", [""], "opcion")

  /** The two fields `handleChangePregunta` is called with. */
  datatype Field = Texto | TipoRespuesta

  /** `handleChangePregunta` on one question: set the field; switching to
      "abierta" empties the options, switching to "opcion" gives an empty
      option list one blank option. */
  function ChangePregunta(p: Pregunta, field: Field, value: string): (q: Pregunta)
    ensures field == Texto ==> q == p.(texto := value)
    ensures field == TipoRespuesta ==> q.texto == p.texto && q.tipoRespuesta == value
    ensures field == TipoRespuesta && value == "abierta" ==> q.opciones == []
    ensures field == TipoRespuesta && value == "opcion" && p.opciones == [] ==> q.opciones == [""]
    ensures field == TipoRespuesta && value == "opcion" && p.opciones != [] ==> q.opciones == p.opciones
    ensures field == TipoRespuesta && value != "abierta" && value != "opcion" ==> q.opciones == p.opciones
  {
    match field
    case Texto => p.(texto := value)
    case TipoRespuesta =>
      if value == "abierta" then p.(tipoRespuesta := value, opciones := [])
      else if value == "opcion" && p.opciones == [] then p.(tipoRespuesta := value, opciones := [""])
      else p.(tipoRespuesta := value)
  }

  /** `p.opciones.some(op => op && op.trim().length > 0)`. */
  predicate HasValidOption(opciones: seq<string>)
  {
    exists j :: 0 <= j < |opciones| && Trim(opciones[j]) != ""
  }

  /** A question the submit loop lets through: non-blank text and, for an
      "opcion" question, a non-blank option. */
  predicate PreguntaOk(p: Pregunta)
  {
    Trim(p.texto) != "" && (p.tipoRespuesta == "opcion" ==> HasValidOption(p.opciones))
  }

  /** The complaint the submit loop makes about one question, if any. */
  function PreguntaError(p: Pregunta): (e: Option<string>)
    ensures e.None? <==> PreguntaOk(p)
  {
    if Trim(p.texto) == "" then Some("Todas las preguntas deben tener texto")
    else if p.tipoRespuesta == "opcion" && !HasValidOption(p.opciones) then
      Some("Cada pregunta de opción múltiple debe tener al menos una opción")
    else None
  }

  /** The complaint about the first question that has one. */
  function FirstPreguntaError(ps: seq<Pregunta>): Option<string>
  {
    FirstSome(ps, PreguntaError)
  }

  /** No question has a complaint exactly when no question is blank and every
      "opcion" question has a non-blank option. */
  lemma FirstPreguntaErrorNone(ps: seq<Pregunta>)
    ensures FirstPreguntaError(ps).None? <==> forall i :: 0 <= i < |ps| ==> PreguntaError(ps[i]).None?
  {
    FirstSomeNone(ps, PreguntaError);
  }

  /** A complaint is the complaint of some question, all questions before which have none. */
  lemma FirstPreguntaErrorIsFirst(ps: seq<Pregunta>)
    requires FirstPreguntaError(ps).Some?
    ensures exists i :: 0 <= i < |ps| && FirstPreguntaError(ps) == PreguntaError(ps[i]) &&
                        forall k :: 0 <= k < i ==> PreguntaError(ps[k]).None?
  {
    FirstSomeIsFirst(ps, PreguntaError);
  }

  /** The complaint `handleSubmit` shows before sending, in its order of checks;
      None when the request is sent. */
  function SubmitError(tipo: string, titulo: string, contenido: Contenido, preguntas: seq<Pregunta>): Option<string>
  {
    if Trim(titulo) == "" then Some("El título es obligatorio")
    else if tipo == "contenido" then
      (if Trim(contenido.url) == "" then Some("La URL es obligatoria") else None)
    else if preguntas == [] then Some("Agrega al menos una pregunta")
    else FirstPreguntaError(preguntas)
  }

  /** `p.opciones.map(op => op.trim()).filter(Boolean)`. */
  function NormalizeOpciones(opciones: seq<string>): seq<string>
  {
    FilterBy(TrimAll(opciones), NonEmpty)
  }

  /** `Boolean` on a string. */
  predicate NonEmpty(s: string)
  {
    s != ""
  }

  /** The options sent are trimmed non-blank options, in their order: none
      is empty, each is already trimmed and is the trim of some option. */
  lemma NormalizeOpcionesSpec(opciones: seq<string>)
    ensures var r := NormalizeOpciones(opciones);
            && |r| <= |opciones|
            && IsSubsequence(r, TrimAll(opciones))
            && (forall k :: 0 <= k < |r| ==> r[k] != "" && Trim(r[k]) == r[k])
            && (forall k :: 0 <= k < |r| ==> exists j :: 0 <= j < |opciones| && r[k] == Trim(opciones[j]))
  {
    var trimmed := TrimAll(opciones);
    var r := NormalizeOpciones(opciones);
    forall k | 0 <= k < |r|
      ensures Trim(r[k]) == r[k]
      ensures exists j :: 0 <= j < |opciones| && r[k] == Trim(opciones[j])
    {
      assert r[k] in trimmed;
      var j :| 0 <= j < |trimmed| && trimmed[j] == r[k];
      TrimIdempotent(opciones[j]);
    }
  }

  /** And nothing is lost: every option that is not blank is sent trimmed,
      and each trimmed text is sent as many times as it occurs among the
      trimmed options. */
  lemma NormalizeOpcionesComplete(opciones: seq<string>)
    ensures forall j :: 0 <= j < |opciones| && Trim(opciones[j]) != "" ==>
              Trim(opciones[j]) in NormalizeOpciones(opciones)
    ensures forall x :: multiset(NormalizeOpciones(opciones))[x] ==
              if x != "" then multiset(TrimAll(opciones))[x] else 0
  {
    var trimmed := TrimAll(opciones);
    FilterByCounts(trimmed, NonEmpty);
    forall j | 0 <= j < |opciones| && Trim(opciones[j]) != ""
      ensures Trim(opciones[j]) in NormalizeOpciones(opciones)
    {
      assert trimmed[j] == Trim(opciones[j]);
    }
  }

  /** No option is sent exactly when every option is blank, which is when
      the submit checks reject an "opcion" question. */
  lemma NormalizeOpcionesEmptyIff(opciones: seq<string>)
    ensures NormalizeOpciones(opciones) == [] <==> !HasValidOption(opciones)
  {
    var trimmed := TrimAll(opciones);
    var r := NormalizeOpciones(opciones);
    if HasValidOption(opciones) {
      var j :| 0 <= j < |opciones| && Trim(opciones[j]) != "";
      assert trimmed[j] != "";
      assert trimmed[j] in r;
    }
  }

  /** `opciones.map(op => op.trim())`. */
  function TrimAll(opciones: seq<string>): (r: seq<string>)
    ensures |r| == |opciones|
    ensures forall j :: 0 <= j < |r| ==> r[j] == Trim(opciones[j])
  {
    if opciones == [] then [] else [Trim(opciones[0])] + TrimAll(opciones[1..])
  }

  /** One question of the payload: trimmed text; "opcion" questions carry
      their trimmed non-blank options, every other kind none. */
  function NormalizePregunta(p: Pregunta): (q: Pregunta)
    ensures q.texto == Trim(p.texto) && q.tipoRespuesta == p.tipoRespuesta
    ensures p.tipoRespuesta != "opcion" ==> q.opciones == []
    ensures p.tipoRespuesta == "opcion" ==> q.opciones == NormalizeOpciones(p.opciones)
  {
    Pregunta(Trim(p.texto), if p.tipoRespuesta == "opcion" then NormalizeOpciones(p.opciones) else [], p.tipoRespuesta)
  }

  function NormalizePreguntas(ps: seq<Pregunta>): (r: seq<Pregunta>)
    ensures |r| == |ps|
    ensures forall i :: 0 <= i < |ps| ==> r[i] == NormalizePregunta(ps[i])
  {
    if ps == [] then [] else [NormalizePregunta(ps[0])] + NormalizePreguntas(ps[1..])
  }

  datatype Datos = ContenidoDatos(contenido: Contenido) | CuestionarioDatos(preguntas: seq<Pregunta>)

  datatype Payload = Payload(tipo: string, titulo: string, descripcion: string, datos: Datos)

  /** The body of `POST /admin/recurso/crear`: title and description as typed,
      the URL and source trimmed, the questions normalised. */
  function BuildPayload(tipo: string, titulo: string, descripcion: string, contenido: Contenido,
                        preguntas: seq<Pregunta>): (p: Payload)
    ensures p.tipo == tipo && p.titulo == titulo && p.descripcion == descripcion
    ensures p.datos.ContenidoDatos? <==> tipo == "contenido"
    ensures tipo == "contenido" ==>
              p.datos.contenido == Contenido(Trim(contenido.url), contenido.tipo, Trim(contenido.fuente))
    ensures tipo != "contenido" ==> p.datos.preguntas == NormalizePreguntas(preguntas)
  {
    Payload(tipo, titulo, descripcion,
            if tipo == "contenido" then ContenidoDatos(Contenido(Trim(contenido.url), contenido.tipo, Trim(contenido.fuente)))
            else CuestionarioDatos(NormalizePreguntas(preguntas)))
  }

  /** What passes the checks is sent well formed: a contenido with a non-empty
      URL, or at least one question, none with empty text, and every "opcion"
      question with at least one non-empty option. */
  lemma AcceptedPayloadIsWellFormed(tipo: string, titulo: string, descripcion: string,
                                    contenido: Contenido, preguntas: seq<Pregunta>)
    requires SubmitError(tipo, titulo, contenido, preguntas).None?
    ensures Trim(titulo) != ""
    ensures var p := BuildPayload(tipo, titulo, descripcion, contenido, preguntas);
            && (p.datos.ContenidoDatos? ==> p.datos.contenido.url != "")
            && (p.datos.CuestionarioDatos? ==>
                  && p.datos.preguntas != []
                  && forall i :: 0 <= i < |p.datos.preguntas| ==>
                       && p.datos.preguntas[i].texto != ""
                       && (p.datos.preguntas[i].tipoRespuesta == "opcion" ==> p.datos.preguntas[i].opciones != []))
  {
    if tipo != "contenido" {
      FirstPreguntaErrorNone(preguntas);
      forall i | 0 <= i < |preguntas| && preguntas[i].tipoRespuesta == "opcion"
        ensures NormalizeOpciones(preguntas[i].opciones) != []
      {
        assert PreguntaError(preguntas[i]).None?;
        NormalizeOpcionesEmptyIff(preguntas[i].opciones);
      }
    }
  }

  class Form {
    var tipo: string
    var titulo: string
    var descripcion: string
    var contenido: Contenido
    var preguntas: seq<Pregunta>

    /** The form as first rendered. */
    constructor ()
      ensures tipo == "contenido" && titulo == "" && descripcion == ""
      ensures contenido == Contenido("", "video", "")
      ensures preguntas == [NuevaPregunta]
    {
      tipo, titulo, descripcion := "contenido", "", "";
      contenido := Contenido("", "video", "");
      preguntas := [NuevaPregunta];
    }

    /** `handleAddPregunta`: one blank "opcion" question at the end. */
    method AddPregunta()
      modifies this`preguntas
      ensures preguntas == old(preguntas) + [NuevaPregunta]
    {
      preguntas := preguntas + [NuevaPregunta];
    }

    /** `handleDeletePregunta(idx)`: exactly index idx goes, the rest keep their order. */
    method DeletePregunta(idx: nat)
      modifies this`preguntas
      ensures preguntas == RemoveAt(old(preguntas), idx)
    {
      preguntas := RemoveAt(preguntas, idx);
    }

    /** `handleChangePregunta(idx, field, value)`; idx is the index of a rendered question. */
    method ChangePreguntaAt(idx: nat, field: Field, value: string)
      requires idx < |preguntas|
      modifies this`preguntas
      ensures preguntas == old(preguntas)[idx := ChangePregunta(old(preguntas)[idx], field, value)]
    {
      preguntas := preguntas[idx := ChangePregunta(preguntas[idx], field, value)];
    }

    /** `handleAddOpcion(idx)`: one empty option at the end of question idx only. */
    method AddOpcion(idx: nat)
      requires idx < |preguntas|
      modifies this`preguntas
      ensures |preguntas| == |old(preguntas)|
      ensures preguntas[idx].opciones == old(preguntas)[idx].opciones + [""]
      ensures preguntas[idx].texto == old(preguntas)[idx].texto
      ensures preguntas[idx].tipoRespuesta == old(preguntas)[idx].tipoRespuesta
      ensures forall i :: 0 <= i < |preguntas| && i != idx ==> preguntas[i] == old(preguntas)[i]
    {
      var p := preguntas[idx];
      preguntas := preguntas[idx := p.(opciones := p.opciones + [""])];
    }

    /** `handleChangeOpcion(idx, oidx, value)` on a rendered option. */
    method ChangeOpcion(idx: nat, oidx: nat, value: string)
      requires idx < |preguntas| && oidx < |preguntas[idx].opciones|
      modifies this`preguntas
      ensures preguntas == old(preguntas)[idx := old(preguntas)[idx].(opciones := old(preguntas)[idx].opciones[oidx := value])]
    {
      var p := preguntas[idx];
      preguntas := preguntas[idx := p.(opciones := p.opciones[oidx := value])];
    }

    /** `handleRemoveOpcion(idx, oidx)`: exactly option oidx of question idx goes. */
    method RemoveOpcion(idx: nat, oidx: nat)
      requires idx < |preguntas|
      modifies this`preguntas
      ensures preguntas == old(preguntas)[idx := old(preguntas)[idx].(opciones := RemoveAt(old(preguntas)[idx].opciones, oidx))]
    {
      var p := preguntas[idx];
      preguntas := preguntas[idx := p.(opciones := RemoveAt(p.opciones, oidx))];
    }

    /** The checks of `handleSubmit`, with the source's loop over the questions
        and its early returns: the first complaint, or None when the request is sent. */
    method Validate() returns (err: Option<string>)
      ensures err == SubmitError(tipo, titulo, contenido, preguntas)
      ensures err.None? ==> Trim(titulo) != ""
      ensures err.None? && tipo != "contenido" ==>
                preguntas != [] && forall i :: 0 <= i < |preguntas| ==> PreguntaError(preguntas[i]).None?
    {
      if Trim(titulo) == "" {
        return Some("El título es obligatorio");
      }
      if tipo == "contenido" {
        if Trim(contenido.url) == "" {
          return Some("La URL es obligatoria");
        }
        return None;
      }
      if |preguntas| == 0 {
        return Some("Agrega al menos una pregunta");
      }
      var i := 0;
      while i < |preguntas|
        invariant 0 <= i <= |preguntas|
        invariant forall k :: 0 <= k < i ==> PreguntaError(preguntas[k]).None?
        invariant FirstPreguntaError(preguntas) == FirstPreguntaError(preguntas[i..])
      {
        var p := preguntas[i];
        if Trim(p.texto) == "" {
          return Some("Todas las preguntas deben tener texto");
        }
        if p.tipoRespuesta == "opcion" {
          if !HasValidOption(p.opciones) {
            return Some("Cada pregunta de opción múltiple debe tener al menos una opción");
          }
        }
        assert preguntas[i..][1..] == preguntas[i + 1..];
        i := i + 1;
      }
      return None;
    }

    /** `handleSubmit`: the payload when the checks pass. */
    method Submit() returns (sent: Option<Payload>)
      ensures sent.None? <==> SubmitError(tipo, titulo, contenido, preguntas).Some?
      ensures sent.Some? ==> sent.value == BuildPayload(tipo, titulo, descripcion, contenido, preguntas)
    {
      var err := Validate();
      if err.Some? {
        return None;
      }
      return Some(BuildPayload(tipo, titulo, descripcion, contenido, preguntas));
    }
  }
}
