/** The persisted session store of src/store/storeAuth.jsx: three fields,
    `setAuth` and `logout`, written through to localStorage under one key. */
module SessionStore {
  import opened JsText
  import opened Storage

  /** The single localStorage key the store persists under. */
  const StorageKey: string := "auth-storage"

  /** The state of a store that has never been set. */
  const Initial: AuthState := AuthState(None, None, None)

  /** The state held in `storage` under the store's key, if it can be read. */
  function Rehydrated(items: map<string, Item>): (s: Option<AuthState>)
    ensures s.Some? <==> StorageKey in items && items[StorageKey].AuthJson?
    ensures s.Some? ==> items[StorageKey] == AuthJson(s.value)
  {
    if StorageKey in items && items[StorageKey].AuthJson? then Some(items[StorageKey].state) else None
  }

  class AuthStore {
    var token: Option<string>
    var user: Option<Usuario>
    var rol: Option<string>
    const storage: LocalStorage

    function State(): AuthState
      reads this
    {
      AuthState(token, user, rol)
    }

    /** The in-memory state and the persisted entry agree. */
    ghost predicate Persisted()
      reads this, storage
    {
      Rehydrated(storage.items) == Some(State())
    }

    /** Creating the store: the initial state, replaced by the persisted one
        when the key holds one. */
    constructor (storage: LocalStorage)
      ensures this.storage == storage
      ensures Rehydrated(storage.items).None? ==> State() == Initial
      ensures Rehydrated(storage.items).Some? ==> State() == Rehydrated(storage.items).value && Persisted()
    {
      this.storage := storage;
      match Rehydrated(storage.items)
      case None =>
        token, user, rol := None, None, None;
      case Some(s) =>
        token, user, rol := s.token, s.user, s.rol;
    }

    /** `setAuth({ token, user, rol })`. */
    method SetAuth(t: Option<string>, u: Option<Usuario>, r: Option<string>)
      modifies this, storage
      ensures token == t && user == u && rol == r
      ensures storage.items == old(storage.items)[StorageKey := AuthJson(State())]
      ensures Persisted()
    {
      token, user, rol := t, u, r;
      storage.SetItem(StorageKey, AuthJson(State()));
    }

    /** `logout()`: all three fields back to null. */
    method Logout()
      modifies this, storage
      ensures State() == Initial
      ensures storage.items == old(storage.items)[StorageKey := AuthJson(Initial)]
      ensures Persisted()
    {
      token, user, rol := None, None, None;
      storage.SetItem(StorageKey, AuthJson(State()));
    }
  }

  /** Logging out twice leaves the store and its storage as logging out once. */
  method LogoutIdempotent(store: AuthStore)
    modifies store, store.storage
    ensures store.State() == Initial && store.Persisted()
    ensures store.storage.items == old(store.storage.items)[StorageKey := AuthJson(Initial)]
  {
    store.Logout();
    ghost var once := store.storage.items;
    store.Logout();
    assert store.storage.items == once;
  }

  /** A session set and then cleared is the initial state, also in storage. */
  method SetAuthThenLogout(store: AuthStore, t: Option<string>, u: Option<Usuario>, r: Option<string>)
    modifies store, store.storage
    ensures store.State() == Initial
    ensures Rehydrated(store.storage.items) == Some(Initial)
  {
    store.SetAuth(t, u, r);
    store.Logout();
  }

  /** A fresh store created over the storage a session was written to holds
      the same session: what `setAuth` stores survives a reload. */
  method ReloadRestoresSession(storage: LocalStorage, t: Option<string>, u: Option<Usuario>, r: Option<string>)
    returns (reloaded: AuthStore)
    modifies storage
    ensures reloaded.State() == AuthState(t, u, r)
  {
    var store := new AuthStore(storage);
    store.SetAuth(t, u, r);
    reloaded := new AuthStore(storage);
  }
}
