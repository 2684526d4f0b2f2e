/** `AuthProvider` of src/context/AuthContext.jsx: the `usuario` and
    `cargando` state and the `login`/`logout` functions it provides, mirrored
    in localStorage under the key "usuario". */
module AuthContext {
  import opened JsText
  import opened Storage

  const UsuarioKey: string := "usuario"

  class AuthProvider {
    var usuario: Option<Usuario>
    var cargando: bool
    const storage: LocalStorage

    /** First render: nobody logged in, still loading. */
    constructor (storage: LocalStorage)
      ensures usuario == None && cargando
      ensures this.storage == storage
    {
      usuario := None;
      cargando := true;
      this.storage := storage;
    }

    /** The mount effect: read the stored user, then stop loading. A stored
        entry that does not parse makes `JSON.parse` throw before
        `setCargando(false)`, so nothing changes. */
    method LoadStored()
      modifies this
      ensures ParseUsuario(storage.GetItem(UsuarioKey)) == Absent ==>
                usuario == old(usuario) && !cargando
      ensures ParseUsuario(storage.GetItem(UsuarioKey)).Parsed? ==>
                usuario == Some(ParseUsuario(storage.GetItem(UsuarioKey)).usuario) && !cargando
      ensures ParseUsuario(storage.GetItem(UsuarioKey)) == ParseError ==>
                usuario == old(usuario) && cargando == old(cargando)
    {
      var parsed := ParseUsuario(storage.GetItem(UsuarioKey));
      match parsed
      case ParseError =>
      case Absent =>
        cargando := false;
      case Parsed(u) =>
        usuario := Some(u);
        cargando := false;
    }

    /** `login(datos)`: set the user and store its JSON text. */
    method Login(datos: Usuario)
      modifies this, storage
      ensures usuario == Some(datos) && cargando == old(cargando)
      ensures storage.items == old(storage.items)[UsuarioKey := UserJson(datos)]
    {
      usuario := Some(datos);
      storage.SetItem(UsuarioKey, UserJson(datos));
    }

    /** `logout()`: forget the user and remove exactly the keys "usuario",
        "rol" and "token"; every other key keeps its value. */
    method Logout()
      modifies this, storage
      ensures usuario == None && cargando == old(cargando)
      ensures storage.items == old(storage.items) - SessionKeys
      ensures forall k :: k !in SessionKeys && k in old(storage.items) ==>
                k in storage.items && storage.items[k] == old(storage.items)[k]
    {
      usuario := None;
      storage.RemoveSessionKeys();
    }
  }

  /** A provider mounted after a login, over the same storage, restores the
      logged-in user and finishes loading. */
  method LoginThenReload(storage: LocalStorage, datos: Usuario) returns (reloaded: AuthProvider)
    modifies storage
    ensures reloaded.usuario == Some(datos) && !reloaded.cargando
  {
    var provider := new AuthProvider(storage);
    provider.LoadStored();
    provider.Login(datos);
    reloaded := new AuthProvider(storage);
    reloaded.LoadStored();
  }

  /** After a logout, a freshly mounted provider finds nobody logged in. */
  method LogoutThenReload(storage: LocalStorage) returns (reloaded: AuthProvider)
    modifies storage
    ensures reloaded.usuario == None && !reloaded.cargando
  {
    var provider := new AuthProvider(storage);
    provider.Logout();
    reloaded := new AuthProvider(storage);
    reloaded.LoadStored();
  }
}
