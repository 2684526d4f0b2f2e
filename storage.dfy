/** The browser's localStorage as the front end uses it: a map from keys to
    stored values, with `getItem`, `setItem` and `removeItem`. */
module Storage {
  import opened JsText

  /** A user object as the back end returns it and the pages store it. */
  datatype Usuario = Usuario(nombre: string, rol: Option<string>)

  /** The persisted fields of the session store of src/store/storeAuth.jsx. */
  datatype AuthState = AuthState(token: Option<string>, user: Option<Usuario>, rol: Option<string>)

  /** A stored value: text written as it is, the JSON text of a user object,
      or the JSON text the session store persists. */
  datatype Item = Raw(text: string) | UserJson(usuario: Usuario) | AuthJson(state: AuthState)

  /** `localStorage.getItem(key)` is truthy: present and not the empty string. */
  predicate ItemTruthy(item: Option<Item>)
  {
    item.Some? && item.value != Raw("")
  }

  /** What `JSON.parse` makes of a stored user entry. */
  datatype Parsed = Absent | Parsed(usuario: Usuario) | ParseError

  /** `JSON.parse(localStorage.getItem(key))` for an entry that should hold a
      user: null parses to null; text not written by `JSON.stringify` of a user
      object is taken as unparsable (the call throws). */
  function ParseUsuario(item: Option<Item>): (p: Parsed)
    ensures p.Parsed? <==> item.Some? && item.value.UserJson?
    ensures p == Absent <==> item.None?
  {
    match item
    case None => Absent
    case Some(UserJson(u)) => Parsed(u)
    case Some(_) => ParseError
  }

  /** The keys every logout handler removes. */
  const SessionKeys: set<string> := {"usuario", "token", "rol"}

  class LocalStorage {
    var items: map<string, Item>

    constructor (initial: map<string, Item>)
      ensures items == initial
    {
      items := initial;
    }

    /** `getItem(key)`; None stands for null. */
    function GetItem(key: string): (r: Option<Item>)
      reads this
      ensures r.Some? <==> key in items
      ensures r.Some? ==> r.value == items[key]
    {
      if key in items then Some(items[key]) else None
    }

    method SetItem(key: string, value: Item)
      modifies this
      ensures items == old(items)[key := value]
    {
      items := items[key := value];
    }

    method RemoveItem(key: string)
      modifies this
      ensures items == old(items) - {key}
    {
      items := items - {key};
    }

    /** The three `removeItem` calls of a logout handler, in any order. */
    method RemoveSessionKeys()
      modifies this
      ensures items == old(items) - SessionKeys
      ensures forall k :: k in items <==> k in old(items) && k !in SessionKeys
    {
      RemoveItem("usuario");
      RemoveItem("token");
      RemoveItem("rol");
    }
  }
}
