/** The patient list of src/pages/admin/PacientesListar.jsx: the search
    filter, the deactivation dialog, and the defaults of the edit form. */
module PacientesListar {
  import opened JsText
  import opened Ui

  datatype Paciente = Paciente(id: string, nombre: Option<string>, apellido: Option<string>,
                               email: Option<string>, telefono: Option<string>, activo: Option<bool>)

  /** `filtro.toLowerCase().trim()`. */
  function Term(filtro: string): string
  {
    Trim(ToLower(filtro))
  }

  /** The lowercased name, surname or e-mail contains the term; a missing one counts as "". */
  predicate Matches(p: Paciente, term: string)
  {
    || Contains(ToLower(OrEmpty(p.nombre)), term)
    || Contains(ToLower(OrEmpty(p.apellido)), term)
    || Contains(ToLower(OrEmpty(p.email)), term)
  }

  /** `pacientesFiltrados`: the whole list for a blank search, otherwise
      exactly the matching patients, in their order. */
  function Filtrados(pacientes: seq<Paciente>, filtro: string): (r: seq<Paciente>)
    ensures Term(filtro) == "" ==> r == pacientes
    ensures Term(filtro) != "" ==> forall k :: 0 <= k < |r| ==> Matches(r[k], Term(filtro))
    ensures Term(filtro) != "" ==>
              forall j :: 0 <= j < |pacientes| && Matches(pacientes[j], Term(filtro)) ==> pacientes[j] in r
    ensures forall k :: 0 <= k < |r| ==> r[k] in pacientes
    ensures Term(filtro) != "" ==>
              forall x :: multiset(r)[x] == if Matches(x, Term(filtro)) then multiset(pacientes)[x] else 0
    ensures IsSubsequence(r, pacientes)
  {
    var term := Term(filtro);
    if term == "" then
      SubsequenceReflexive(pacientes);
      pacientes
    else
      var matching := (p: Paciente) => Matches(p, term);
      FilterByCounts(pacientes, matching);
      FilterBy(pacientes, matching)
  }

  lemma LowerCharIdempotent(c: char)
    ensures LowerChar(LowerChar(c)) == LowerChar(c)
  {
  }

  /** Lowercasing twice is lowercasing once. */
  lemma ToLowerIdempotent(s: string)
    ensures ToLower(ToLower(s)) == ToLower(s)
  {
    forall i | 0 <= i < |s|
      ensures ToLower(ToLower(s))[i] == ToLower(s)[i]
    {
      LowerCharIdempotent(s[i]);
    }
  }

  /** The search ignores the case of the letters typed. */
  lemma FiltradosIgnoresCase(pacientes: seq<Paciente>, filtro: string)
    ensures Filtrados(pacientes, ToLower(filtro)) == Filtrados(pacientes, filtro)
  {
    ToLowerIdempotent(filtro);
  }

  /** The edit form's values: each string, or "" when missing; `activo`
      true only when missing (`??` keeps false). */
  datatype EditForm = EditForm(nombre: string, apellido: string, telefono: string, activo: bool)

  function EditDefaults(p: Paciente): (f: EditForm)
    ensures f.nombre == OrEmpty(p.nombre) && f.apellido == OrEmpty(p.apellido)
    ensures f.telefono == OrEmpty(p.telefono)
    ensures p.activo.None? ==> f.activo
    ensures p.activo.Some? ==> f.activo == p.activo.value
  {
    EditForm(OrEmpty(p.nombre), OrEmpty(p.apellido), OrEmpty(p.telefono),
             match p.activo case None => true case Some(a) => a)
  }

  /** The outcome of `GET /admin/pacientes`: a body that may be null, or an error. */
  datatype FetchOutcome = Fetched(data: Option<seq<Paciente>>) | FetchFailed(serverMsg: Option<string>)

  /** The outcome of `DELETE /admin/pacientes/baja/:id`. */
  datatype BajaOutcome = BajaOk(msg: Option<string>) | BajaFailed(serverMsg: Option<string>)

  class Page {
    var pacientes: seq<Paciente>
    var loading: bool
    var filtro: string
    var selected: Option<Paciente>
    var openView: bool
    var openEdit: bool
    var openConfirm: bool
    var idParaBaja: Option<string>
    var toast: Option<Toast>

    constructor ()
      ensures pacientes == [] && loading && filtro == "" && selected == None
      ensures !openView && !openEdit && !openConfirm && idParaBaja == None && toast == None
    {
      pacientes, loading, filtro, selected := [], true, "", None;
      openView, openEdit, openConfirm, idParaBaja, toast := false, false, false, None, None;
    }

    /** The rows shown. */
    function Shown(): (r: seq<Paciente>)
      reads this
      ensures IsSubsequence(r, pacientes)
    {
      Filtrados(pacientes, filtro)
    }

    /** `fetchPacientes` once the request settles: the list, or [] for a
        null body; an error toast on failure; loading ends either way. */
    method Loaded(outcome: FetchOutcome)
      modifies this`pacientes, this`loading, this`toast
      ensures !loading
      ensures outcome.Fetched? && outcome.data.Some? ==> pacientes == outcome.data.value && toast == old(toast)
      ensures outcome.Fetched? && outcome.data.None? ==> pacientes == [] && toast == old(toast)
      ensures outcome.FetchFailed? ==>
                pacientes == old(pacientes) &&
                toast == Some(ErrorToast(OrElse(outcome.serverMsg, "Error al obtener pacientes")))
    {
      match outcome {
        case Fetched(data) =>
          pacientes := match data case Some(ps) => ps case None => [];
        case FetchFailed(serverMsg) =>
          toast := Some(ErrorToast(OrElse(serverMsg, "Error al obtener pacientes")));
      }
      loading := false;
    }

    /** `handleVer(p)`. */
    method Ver(p: Paciente)
      modifies this`selected, this`openView
      ensures selected == Some(p) && openView
    {
      selected := Some(p);
      openView := true;
    }

    /** `handleEditar(p)`: the edit form then holds `EditDefaults(p)`. */
    method Editar(p: Paciente)
      modifies this`selected, this`openEdit
      ensures selected == Some(p) && openEdit
    {
      selected := Some(p);
      openEdit := true;
    }

    /** `confirmarBaja(id)`: remember the id and open the dialog. */
    method ConfirmarBaja(id: string)
      modifies this`idParaBaja, this`openConfirm
      ensures idParaBaja == Some(id) && openConfirm
    {
      idParaBaja := Some(id);
      openConfirm := true;
    }

    /** "Cancelar" in the dialog: it closes, the remembered id stays. */
    method CancelarBaja()
      modifies this`openConfirm
      ensures !openConfirm
    {
      openConfirm := false;
    }

    /** `darDeBaja` once the request settles: on success the dialog closes
        and the id is cleared; on failure both stay. */
    method DarDeBaja(outcome: BajaOutcome)
      modifies this`openConfirm, this`idParaBaja, this`toast
      ensures outcome.BajaOk? ==>
                !openConfirm && idParaBaja == None &&
                toast == Some(SuccessToast(OrElse(outcome.msg, "Paciente dado de baja")))
      ensures outcome.BajaFailed? ==>
                openConfirm == old(openConfirm) && idParaBaja == old(idParaBaja) &&
                toast == Some(ErrorToast(OrElse(outcome.serverMsg, "Error al dar de baja")))
    {
      match outcome
      case BajaOk(msg) =>
        toast := Some(SuccessToast(OrElse(msg, "Paciente dado de baja")));
        openConfirm := false;
        idParaBaja := None;
      case BajaFailed(serverMsg) =>
        toast := Some(ErrorToast(OrElse(serverMsg, "Error al dar de baja")));
    }
  }
}
