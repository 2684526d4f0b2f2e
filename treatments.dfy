/** The treatments store of src/store/storeTreatments.jsx: a `modal` field
    that is false, null or a modal type, toggled by the views and negated
    after a successful registration or payment. */
module Treatments {
  import opened JsText
  import opened Ui
  import opened Storage
  import SessionStore

  /** The JavaScript values `modal` takes. */
  datatype ModalValue = Bool(b: bool) | Null | Type(t: string)

  /** Truthiness of the value. */
  predicate ModalTruthy(m: ModalValue)
  {
    match m
    case Bool(b) => b
    case Null => false
    case Type(t) => t != ""
  }

  /** `state.modal === modalType ? null : modalType`. */
  function Toggle(m: ModalValue, modalType: string): (r: ModalValue)
    ensures m == Type(modalType) ==> r == Null
    ensures m != Type(modalType) ==> r == Type(modalType)
  {
    if m == Type(modalType) then Null else Type(modalType)
  }

  /** `!state.modal`: always a boolean. */
  function Negate(m: ModalValue): (r: ModalValue)
    ensures r.Bool? && (r.b <==> !ModalTruthy(m))
  {
    Bool(!ModalTruthy(m))
  }

  /** Toggling a type twice from the initial `false` ends at null, not at false. */
  lemma ToggleTwiceFromInitial(modalType: string)
    ensures Toggle(Toggle(Bool(false), modalType), modalType) == Null
    ensures Toggle(Toggle(Bool(false), modalType), modalType) != Bool(false)
  {
  }

  /** Toggling the same type twice restores any value but another open type,
      which ends closed (null). */
  lemma ToggleTwice(m: ModalValue, modalType: string)
    ensures m.Type? && m.t != modalType ==> Toggle(Toggle(m, modalType), modalType) == Null
    ensures m == Type(modalType) ==> Toggle(Toggle(m, modalType), modalType) == m
  {
  }

  /** The key the store reads the session from. */
  const TokenKey: string := "auth-token"

  /** `JSON.parse(localStorage.getItem(key)).state.token`: None when this
      throws, which it does unless the key holds a persisted session. */
  function SessionToken(items: map<string, Item>, key: string): (r: Option<Option<string>>)
    ensures r.Some? <==> key in items && items[key].AuthJson?
    ensures r.Some? ==> r.value == items[key].state.token
  {
    if key in items && items[key].AuthJson? then Some(items[key].state.token) else None
  }

  /** Writing the session store's key never gives the treatments store a token. */
  lemma SessionWriteInvisible(items: map<string, Item>, s: AuthState)
    ensures SessionToken(items[SessionStore.StorageKey := AuthJson(s)], TokenKey) == SessionToken(items, TokenKey)
  {
  }

  /** Reading the session store's own key sees what it wrote. */
  lemma SessionWriteVisibleUnderItsKey(items: map<string, Item>, s: AuthState)
    ensures SessionToken(items[SessionStore.StorageKey := AuthJson(s)], SessionStore.StorageKey) == Some(s.token)
  {
  }

  datatype Action = Registro | Pago

  function FailureMessage(action: Action): string
  {
    match action
    case Registro => "Error al registrar el tratamiento psicológico."
    case Pago => "Error al procesar el pago del tratamiento."
  }

  class Store {
    var modal: ModalValue
    var toast: Option<Toast>
    const storage: LocalStorage

    constructor (storage: LocalStorage)
      ensures modal == Bool(false) && toast == None && this.storage == storage
    {
      modal, toast := Bool(false), None;
      this.storage := storage;
    }

    /** `toggleModal(modalType)`. */
    method ToggleModal(modalType: string)
      modifies this`modal
      ensures modal == Toggle(old(modal), modalType)
    {
      modal := Toggle(modal, modalType);
    }

    /** `registerTreatments` / `payTreatments` with the session read under
        `key`. `sent` is the bearer token of the request, None when reading
        the session throws first; `response` is the reply's message, None
        when the request fails. Only a success negates `modal`. */
    method Post(action: Action, key: string, response: Option<string>) returns (sent: Option<Option<string>>)
      modifies this`modal, this`toast
      ensures sent == SessionToken(storage.items, key)
      ensures sent.Some? && response.Some? ==> modal == Negate(old(modal)) && toast == Some(SuccessToast(response.value))
      ensures sent.None? || response.None? ==> modal == old(modal) && toast == Some(ErrorToast(FailureMessage(action)))
    {
      sent := SessionToken(storage.items, key);
      if sent.None? || response.None? {
        toast := Some(ErrorToast(FailureMessage(action)));
        return;
      }
      modal := Negate(modal);
      toast := Some(SuccessToast(response.value));
    }

    /** `registerTreatments` as written: the session is read under "auth-token". */
    method RegisterTreatments(response: Option<string>) returns (sent: Option<Option<string>>)
      modifies this`modal, this`toast
      ensures sent == SessionToken(storage.items, TokenKey)
      ensures sent.Some? && response.Some? ==> modal == Negate(old(modal)) && toast == Some(SuccessToast(response.value))
      ensures sent.None? || response.None? ==> modal == old(modal) && toast == Some(ErrorToast(FailureMessage(Registro)))
    {
      sent := Post(Registro, TokenKey, response);
    }

    /** `payTreatments` as written. */
    method PayTreatments(response: Option<string>) returns (sent: Option<Option<string>>)
      modifies this`modal, this`toast
      ensures sent == SessionToken(storage.items, TokenKey)
      ensures sent.Some? && response.Some? ==> modal == Negate(old(modal)) && toast == Some(SuccessToast(response.value))
      ensures sent.None? || response.None? ==> modal == old(modal) && toast == Some(ErrorToast(FailureMessage(Pago)))
    {
      sent := Post(Pago, TokenKey, response);
    }

    /** `registerTreatments` reading the key the session store persists under. */
    method RegisterTreatmentsWithSessionKey(response: Option<string>) returns (sent: Option<Option<string>>)
      modifies this`modal, this`toast
      ensures sent == SessionToken(storage.items, SessionStore.StorageKey)
      ensures sent.Some? && response.Some? ==> modal == Negate(old(modal)) && toast == Some(SuccessToast(response.value))
      ensures sent.None? || response.None? ==> modal == old(modal) && toast == Some(ErrorToast(FailureMessage(Registro)))
    {
      sent := Post(Registro, SessionStore.StorageKey, response);
    }

    /** `deleteTreatments(id)` with the session read under `key`: `confirmed`
        is the dialog's answer and `response` the reply's message, None on
        failure. `modal` is never touched. */
    method Delete(key: string, confirmed: bool, response: Option<string>) returns (sent: Option<Option<string>>)
      modifies this`toast
      ensures !confirmed ==> sent.None? && toast == old(toast)
      ensures confirmed ==> sent == SessionToken(storage.items, key)
      ensures confirmed && sent.Some? && response.Some? ==> toast == Some(SuccessToast(response.value))
      ensures confirmed && (sent.None? || response.None?) ==> toast == Some(ErrorToast("Error al eliminar el tratamiento."))
    {
      if !confirmed {
        return None;
      }
      sent := SessionToken(storage.items, key);
      if sent.None? || response.None? {
        toast := Some(ErrorToast("Error al eliminar el tratamiento."));
      } else {
        toast := Some(SuccessToast(response.value));
      }
    }

    /** `deleteTreatments` as written. */
    method DeleteTreatments(confirmed: bool, response: Option<string>) returns (sent: Option<Option<string>>)
      modifies this`toast
      ensures !confirmed ==> sent.None? && toast == old(toast)
      ensures confirmed ==> sent == SessionToken(storage.items, TokenKey)
      ensures confirmed && sent.Some? && response.Some? ==> toast == Some(SuccessToast(response.value))
      ensures confirmed && (sent.None? || response.None?) ==> toast == Some(ErrorToast("Error al eliminar el tratamiento."))
    {
      sent := Delete(TokenKey, confirmed, response);
    }

    /** `payTreatments` reading the key the session store persists under. */
    method PayTreatmentsWithSessionKey(response: Option<string>) returns (sent: Option<Option<string>>)
      modifies this`modal, this`toast
      ensures sent == SessionToken(storage.items, SessionStore.StorageKey)
      ensures sent.Some? && response.Some? ==> modal == Negate(old(modal)) && toast == Some(SuccessToast(response.value))
      ensures sent.None? || response.None? ==> modal == old(modal) && toast == Some(ErrorToast(FailureMessage(Pago)))
    {
      sent := Post(Pago, SessionStore.StorageKey, response);
    }

    /** `deleteTreatments` reading the key the session store persists under. */
    method DeleteTreatmentsWithSessionKey(confirmed: bool, response: Option<string>) returns (sent: Option<Option<string>>)
      modifies this`toast
      ensures !confirmed ==> sent.None? && toast == old(toast)
      ensures confirmed ==> sent == SessionToken(storage.items, SessionStore.StorageKey)
      ensures confirmed && sent.Some? && response.Some? ==> toast == Some(SuccessToast(response.value))
      ensures confirmed && (sent.None? || response.None?) ==> toast == Some(ErrorToast("Error al eliminar el tratamiento."))
    {
      sent := Delete(SessionStore.StorageKey, confirmed, response);
    }
  }

  /** As written, no token is ever read once the only session write is the
      session store's: every request of the store throws before it is sent. */
  lemma AsWrittenNeverReadsSession(items: map<string, Item>, s: AuthState)
    requires TokenKey !in items
    ensures SessionToken(items[SessionStore.StorageKey := AuthJson(s)], TokenKey).None?
  {
    SessionWriteInvisible(items, s);
  }

  /** As written: after a login through the session store, on a storage
      holding nothing under "auth-token", registering a treatment never
      sends its request, never changes `modal` and always shows the
      registration's error toast. */
  method LoggedInRegistrationNeverSent(storage: LocalStorage, t: Option<string>, u: Option<Usuario>,
                                       r: Option<string>, response: Option<string>)
    returns (sent: Option<Option<string>>, modal: ModalValue, toast: Option<Toast>)
    requires TokenKey !in storage.items
    modifies storage
    ensures sent.None?
    ensures modal == Bool(false)
    ensures toast == Some(ErrorToast("Error al registrar el tratamiento psicológico."))
  {
    var session := new SessionStore.AuthStore(storage);
    session.SetAuth(t, u, r);
    var store := new Store(storage);
    sent := store.RegisterTreatments(response);
    modal, toast := store.modal, store.toast;
  }

  /** Reading the session store's key, the same registration sends the
      logged-in token, a success negates `modal` and shows the reply's
      message, and a failure shows the registration's error toast. */
  method LoggedInRegistrationWithSessionKey(storage: LocalStorage, t: Option<string>, u: Option<Usuario>,
                                            r: Option<string>, response: Option<string>)
    returns (sent: Option<Option<string>>, modal: ModalValue, toast: Option<Toast>)
    modifies storage
    ensures sent == Some(t)
    ensures response.Some? ==> modal == Bool(true) && toast == Some(SuccessToast(response.value))
    ensures response.None? ==> modal == Bool(false) && toast == Some(ErrorToast("Error al registrar el tratamiento psicológico."))
  {
    var session := new SessionStore.AuthStore(storage);
    session.SetAuth(t, u, r);
    var store := new Store(storage);
    sent := store.RegisterTreatmentsWithSessionKey(response);
    modal, toast := store.modal, store.toast;
  }
}
