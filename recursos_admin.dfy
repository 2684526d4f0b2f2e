/** The resource list of src/pages/admin/RecursosAdmin.jsx: loading the list
    and deleting one resource, after which the list is filtered locally. */
module RecursosAdmin {
  import opened JsText
  import opened Ui

  datatype Recurso = Recurso(id: string, titulo: string, tipo: string, descripcion: string)

  /** The outcome of `DELETE /admin/recurso/eliminar/:id`. */
  datatype DeleteOutcome = Deleted(msg: Option<string>) | DeleteFailed

  /** `prev.filter(r => r._id !== id)`: every resource with that id goes,
      every other stays, in its order. */
  function WithoutId(recursos: seq<Recurso>, id: string): (r: seq<Recurso>)
    ensures forall k :: 0 <= k < |r| ==> r[k].id != id
    ensures forall j :: 0 <= j < |recursos| && recursos[j].id != id ==> recursos[j] in r
    ensures forall k :: 0 <= k < |r| ==> r[k] in recursos
    ensures forall x :: multiset(r)[x] == if x.id != id then multiset(recursos)[x] else 0
    ensures IsSubsequence(r, recursos)
  {
    var keep := (x: Recurso) => x.id != id;
    FilterByCounts(recursos, keep);
    FilterBy(recursos, keep)
  }

  /** Deleting the same id again removes nothing more. */
  lemma WithoutIdIdempotent(recursos: seq<Recurso>, id: string)
    ensures WithoutId(WithoutId(recursos, id), id) == WithoutId(recursos, id)
  {
    FilterByKeepsAll(WithoutId(recursos, id), (x: Recurso) => x.id != id);
  }

  class Page {
    var recursos: seq<Recurso>
    var cargando: bool
    var toast: Option<Toast>

    constructor ()
      ensures recursos == [] && cargando && toast == None
    {
      recursos, cargando, toast := [], true, None;
    }

    /** `cargarRecursos` once the request settles: the list on success, an
        error toast otherwise; loading ends either way. */
    method Loaded(data: Option<seq<Recurso>>)
      modifies this
      ensures !cargando
      ensures data.Some? ==> recursos == data.value && toast == old(toast)
      ensures data.None? ==> recursos == old(recursos) && toast == Some(ErrorToast("No se pudo cargar los recursos"))
    {
      if data.Some? {
        recursos := data.value;
      } else {
        toast := Some(ErrorToast("No se pudo cargar los recursos"));
      }
      cargando := false;
    }

    /** `handleEliminar(id)`: `confirmed` is the answer to the confirm dialog
        and `outcome` that of the request, made only when confirmed. */
    method Eliminar(id: string, confirmed: bool, outcome: DeleteOutcome) returns (requested: bool)
      modifies this
      ensures requested == confirmed
      ensures cargando == old(cargando)
      ensures !confirmed ==> recursos == old(recursos) && toast == old(toast)
      ensures confirmed && outcome.DeleteFailed? ==>
                recursos == old(recursos) && toast == Some(ErrorToast("No se pudo eliminar"))
      ensures confirmed && outcome.Deleted? ==>
                && recursos == WithoutId(old(recursos), id)
                && toast == Some(SuccessToast(OrElse(outcome.msg, "Recurso eliminado")))
    {
      requested := confirmed;
      if !confirmed {
        return;
      }
      match outcome
      case DeleteFailed =>
        toast := Some(ErrorToast("No se pudo eliminar"));
      case Deleted(msg) =>
        toast := Some(SuccessToast(OrElse(msg, "Recurso eliminado")));
        recursos := WithoutId(recursos, id);
    }
  }
}
