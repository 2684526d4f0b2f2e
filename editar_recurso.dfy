/** `EditarRecursoModal` of src/components/admin/EditarRecursosModal.jsx: the
    edit form's initial state derived from the resource, its question list
    handlers, and the update payload. */
module EditarRecurso {
  import opened JsText
  import RecursosCrear

  /** A question as the back end returns it: options and answer kind may be missing. */
  datatype Pregunta = Pregunta(texto: string, opciones: Option<seq<string>>, tipoRespuesta: Option<string>)

  datatype Referencia = Referencia(url: Option<string>, tipo: Option<string>, fuente: Option<string>,
                                   preguntas: Option<seq<Pregunta>>)

  datatype Recurso = Recurso(titulo: Option<string>, descripcion: Option<string>, tipo: string,
                             referencia: Option<Referencia>)

  type Contenido = RecursosCrear.Contenido

  /** The question `handleAddPregunta` appends: note it has no option at all. */
  const NuevaPregunta: Pregunta := Pregunta("", Some([]), Some("opcion"))

  /** The initial `contenido`: the resource's reference fields for a
      "contenido", defaults otherwise or where a field is missing or empty. */
  function InitialContenido(recurso: Recurso): (c: Contenido)
    ensures recurso.tipo != "contenido" ==> c == RecursosCrear.Contenido("", "video", "")
    ensures recurso.tipo == "contenido" && recurso.referencia.None? ==> c == RecursosCrear.Contenido("", "video", "")
    ensures recurso.tipo == "contenido" && recurso.referencia.Some? ==>
              var ref := recurso.referencia.value;
              && (Truthy(ref.url) ==> c.url == ref.url.value) && (!Truthy(ref.url) ==> c.url == "")
              && (Truthy(ref.tipo) ==> c.tipo == ref.tipo.value) && (!Truthy(ref.tipo) ==> c.tipo == "video")
              && (Truthy(ref.fuente) ==> c.fuente == ref.fuente.value) && (!Truthy(ref.fuente) ==> c.fuente == "")
  {
    if recurso.tipo == "contenido" && recurso.referencia.Some? then
      var ref := recurso.referencia.value;
      RecursosCrear.Contenido(OrElse(ref.url, ""), OrElse(ref.tipo, "video"), OrElse(ref.fuente, ""))
    else RecursosCrear.Contenido("", "video", "")
  }

  /** The initial question list: the reference's questions for a
      "cuestionario" (an empty list stays empty), else none. */
  function InitialCuestionario(recurso: Recurso): (ps: seq<Pregunta>)
    ensures recurso.tipo != "cuestionario" ==> ps == []
    ensures recurso.tipo == "cuestionario" && recurso.referencia.Some? && recurso.referencia.value.preguntas.Some? ==>
              ps == recurso.referencia.value.preguntas.value
    ensures recurso.referencia.None? || recurso.referencia.value.preguntas.None? ==> ps == []
  {
    if recurso.tipo == "cuestionario" && recurso.referencia.Some? && recurso.referencia.value.preguntas.Some? then
      recurso.referencia.value.preguntas.value
    else []
  }

  /** `p.opciones?.filter(Boolean) || []`: the empty strings go, untrimmed
      options stay as they are, in order. */
  function PayloadOpciones(opciones: Option<seq<string>>): (r: seq<string>)
    ensures opciones.None? ==> r == []
    ensures opciones.Some? ==> |r| <= |opciones.value| && IsSubsequence(r, opciones.value)
    ensures forall k :: 0 <= k < |r| ==> r[k] != ""
    ensures opciones.Some? ==> forall j :: 0 <= j < |opciones.value| && opciones.value[j] != "" ==> opciones.value[j] in r
    ensures opciones.Some? ==> forall x :: multiset(r)[x] == if x != "" then multiset(opciones.value)[x] else 0
  {
    match opciones
    case None => []
    case Some(os) =>
      FilterByCounts(os, RecursosCrear.NonEmpty);
      FilterBy(os, RecursosCrear.NonEmpty)
  }

  /** One question of the update payload: text as typed, answer kind "opcion" when missing. */
  function PayloadPregunta(p: Pregunta): (q: RecursosCrear.Pregunta)
    ensures q.texto == p.texto
    ensures q.opciones == PayloadOpciones(p.opciones)
    ensures Truthy(p.tipoRespuesta) ==> q.tipoRespuesta == p.tipoRespuesta.value
    ensures !Truthy(p.tipoRespuesta) ==> q.tipoRespuesta == "opcion"
  {
    RecursosCrear.Pregunta(p.texto, PayloadOpciones(p.opciones), OrElse(p.tipoRespuesta, "opcion"))
  }

  function PayloadPreguntas(ps: seq<Pregunta>): (r: seq<RecursosCrear.Pregunta>)
    ensures |r| == |ps|
    ensures forall i :: 0 <= i < |ps| ==> r[i] == PayloadPregunta(ps[i])
  {
    if ps == [] then [] else [PayloadPregunta(ps[0])] + PayloadPreguntas(ps[1..])
  }

  datatype Payload = Payload(titulo: string, descripcion: string, datos: RecursosCrear.Datos)

  /** Unlike the resource builder, the edit form keeps blank-but-not-empty
      options and does not trim: an option "  " is sent by one and dropped by the other. */
  lemma BlankOptionKeptOnEdit()
    ensures PayloadOpciones(Some(["  "])) == ["  "]
    ensures RecursosCrear.NormalizeOpciones(["  "]) == []
  {
    assert RecursosCrear.TrimAll(["  "]) == [""] by {
      assert Trim("  ") == "";
    }
    assert FilterBy([""], RecursosCrear.NonEmpty) == [];
    assert FilterBy(["  "], RecursosCrear.NonEmpty) == ["  "];
  }

  class Modal {
    const recurso: Recurso
    var titulo: string
    var descripcion: string
    var contenido: Contenido
    var cuestionario: seq<Pregunta>

    /** The state of the modal opened on `recurso`. */
    constructor (recurso: Recurso)
      ensures this.recurso == recurso
      ensures titulo == OrEmpty(recurso.titulo) && descripcion == OrEmpty(recurso.descripcion)
      ensures contenido == InitialContenido(recurso)
      ensures cuestionario == InitialCuestionario(recurso)
    {
      this.recurso := recurso;
      titulo := OrEmpty(recurso.titulo);
      descripcion := OrEmpty(recurso.descripcion);
      contenido := InitialContenido(recurso);
      cuestionario := InitialCuestionario(recurso);
    }

    /** `handleAddPregunta`. */
    method AddPregunta()
      modifies this`cuestionario
      ensures cuestionario == old(cuestionario) + [NuevaPregunta]
    {
      cuestionario := cuestionario + [NuevaPregunta];
    }

    /** `handleChangePregunta(idx, "texto", value)`: the options are never touched. */
    method ChangeTexto(idx: nat, value: string)
      requires idx < |cuestionario|
      modifies this`cuestionario
      ensures cuestionario == old(cuestionario)[idx := old(cuestionario)[idx].(texto := value)]
    {
      cuestionario := cuestionario[idx := cuestionario[idx].(texto := value)];
    }

    /** `handleChangePregunta(idx, "tipoRespuesta", value)`: the options are
        never touched, not even when switching to "abierta". */
    method ChangeTipoRespuesta(idx: nat, value: string)
      requires idx < |cuestionario|
      modifies this`cuestionario
      ensures cuestionario == old(cuestionario)[idx := old(cuestionario)[idx].(tipoRespuesta := Some(value))]
    {
      cuestionario := cuestionario[idx := cuestionario[idx].(tipoRespuesta := Some(value))];
    }

    /** `handleAddOpcion(idx)`: a missing option list counts as empty. */
    method AddOpcion(idx: nat)
      requires idx < |cuestionario|
      modifies this`cuestionario
      ensures |cuestionario| == |old(cuestionario)|
      ensures cuestionario[idx].opciones == Some(PayloadOrEmpty(old(cuestionario)[idx].opciones) + [""])
      ensures cuestionario[idx].texto == old(cuestionario)[idx].texto
      ensures cuestionario[idx].tipoRespuesta == old(cuestionario)[idx].tipoRespuesta
      ensures forall i :: 0 <= i < |cuestionario| && i != idx ==> cuestionario[i] == old(cuestionario)[i]
    {
      var p := cuestionario[idx];
      cuestionario := cuestionario[idx := p.(opciones := Some(PayloadOrEmpty(p.opciones) + [""]))];
    }

    /** `handleChangeOpcion(idx, oidx, value)` on a rendered option. */
    method ChangeOpcion(idx: nat, oidx: nat, value: string)
      requires idx < |cuestionario|
      requires cuestionario[idx].opciones.Some? && oidx < |cuestionario[idx].opciones.value|
      modifies this`cuestionario
      ensures |cuestionario| == |old(cuestionario)|
      ensures cuestionario[idx] ==
                old(cuestionario)[idx].(opciones := Some(old(cuestionario)[idx].opciones.value[oidx := value]))
      ensures forall i :: 0 <= i < |cuestionario| && i != idx ==> cuestionario[i] == old(cuestionario)[i]
    {
      var p := cuestionario[idx];
      cuestionario := cuestionario[idx := p.(opciones := Some(p.opciones.value[oidx := value]))];
    }

    /** `handleDeletePregunta(idx)`. */
    method DeletePregunta(idx: nat)
      modifies this`cuestionario
      ensures cuestionario == RemoveAt(old(cuestionario), idx)
    {
      cuestionario := RemoveAt(cuestionario, idx);
    }

    /** The body of `PUT /admin/recurso/actualizar/:id`: the contenido fields
        exactly when the resource is a "contenido", else the questions; nothing
        is trimmed or checked. */
    function BuildPayload(): (p: Payload)
      reads this
      ensures p.titulo == titulo && p.descripcion == descripcion
      ensures p.datos.ContenidoDatos? <==> recurso.tipo == "contenido"
      ensures p.datos.ContenidoDatos? ==> p.datos.contenido == contenido
      ensures p.datos.CuestionarioDatos? ==> p.datos.preguntas == PayloadPreguntas(cuestionario)
    {
      Payload(titulo, descripcion,
              if recurso.tipo == "contenido" then RecursosCrear.ContenidoDatos(contenido)
              else RecursosCrear.CuestionarioDatos(PayloadPreguntas(cuestionario)))
    }
  }

  /** `opciones || []`. */
  function PayloadOrEmpty(opciones: Option<seq<string>>): seq<string>
  {
    match opciones
    case None => []
    case Some(os) => os
  }

  /** A question of a created resource as the back end returns it. */
  function FromCreated(q: RecursosCrear.Pregunta): Pregunta
  {
    Pregunta(q.texto, Some(q.opciones), Some(q.tipoRespuesta))
  }

  /** Opening a resource made by the resource builder and saving it without
      edits sends the questions the builder sent, as long as each question
      had an answer kind. */
  lemma SavingUnchangedKeepsCreatedQuestions(form: seq<RecursosCrear.Pregunta>)
    requires forall i :: 0 <= i < |form| ==> form[i].tipoRespuesta != ""
    ensures var created := RecursosCrear.NormalizePreguntas(form);
            PayloadPreguntas(seq(|created|, i requires 0 <= i < |created| => FromCreated(created[i]))) == created
  {
    var created := RecursosCrear.NormalizePreguntas(form);
    var loaded := seq(|created|, i requires 0 <= i < |created| => FromCreated(created[i]));
    forall i | 0 <= i < |created|
      ensures PayloadPregunta(loaded[i]) == created[i]
    {
      var os := created[i].opciones;
      if form[i].tipoRespuesta == "opcion" {
        RecursosCrear.NormalizeOpcionesSpec(form[i].opciones);
      }
      FilterByKeepsAll(os, RecursosCrear.NonEmpty);
    }
  }
}
