/** The store setters the login pages call (`setToken`, `setNombre`,
    `setUsuario`, `setRol`): each overwrites one field of the session. */
module SessionSetters {
  import opened JsText
  import opened Storage

  class Sink {
    var token: Option<string>
    var nombre: Option<string>
    var usuario: Option<Usuario>
    var rol: Option<string>

    constructor ()
      ensures token == None && nombre == None && usuario == None && rol == None
    {
      token, nombre, usuario, rol := None, None, None, None;
    }

    method SetToken(t: Option<string>)
      modifies this
      ensures token == t && nombre == old(nombre) && usuario == old(usuario) && rol == old(rol)
    {
      token := t;
    }

    method SetNombre(n: Option<string>)
      modifies this
      ensures nombre == n && token == old(token) && usuario == old(usuario) && rol == old(rol)
    {
      nombre := n;
    }

    method SetUsuario(u: Option<Usuario>)
      modifies this
      ensures usuario == u && token == old(token) && nombre == old(nombre) && rol == old(rol)
    {
      usuario := u;
    }

    method SetRol(r: Option<string>)
      modifies this
      ensures rol == r && token == old(token) && nombre == old(nombre) && usuario == old(usuario)
    {
      rol := r;
    }
  }
}

/** `onSubmit` of src/pages/Login.jsx: post the credentials, store the
    session, and go to the dashboard of the user's role. */
module LoginPage {
  import opened JsText
  import opened Storage
  import opened SessionSetters
  import opened Ui

  /** The outcome of the login request: the response body, whose `usuario`
      may be missing, or an error whose response may carry a `msg`. */
  datatype LoginResponse =
    | Accepted(msg: Option<string>, token: Option<string>, usuario: Option<Usuario>)
    | Rejected(serverMsg: Option<string>)

  /** Where a logged-in role goes; other roles stay on the page. */
  function RouteForRole(rol: Option<string>): (r: Option<string>)
    ensures r == Some("/admin") <==> rol == Some("admin")
    ensures r == Some("/paciente") <==> rol == Some("paciente")
    ensures r.None? <==> rol != Some("admin") && rol != Some("paciente")
  {
    if rol == Some("admin") then Some("/admin")
    else if rol == Some("paciente") then Some("/paciente")
    else None
  }

  /** The error toast: the server's `msg` if it has one, else a fixed text. */
  function FailureMessage(serverMsg: Option<string>): (m: string)
    ensures Truthy(serverMsg) ==> m == serverMsg.value
    ensures !Truthy(serverMsg) ==> m == "Error al iniciar sesión"
    ensures m != ""
  {
    if Truthy(serverMsg) then serverMsg.value else "Error al iniciar sesión"
  }

  class Page {
    var cargando: bool
    var navigatedTo: Option<string>
    var toast: Option<Toast>
    const session: Sink

    constructor (session: Sink)
      ensures !cargando && navigatedTo == None && toast == None && this.session == session
    {
      cargando, navigatedTo, toast := false, None, None;
      this.session := session;
    }

    /** `setCargando(true)` before the request is sent. */
    method StartRequest()
      modifies this
      ensures cargando && navigatedTo == old(navigatedTo) && toast == old(toast)
    {
      cargando := true;
    }

    /** The rest of `onSubmit` once the request settles; `finally` clears
        `cargando`. A body without `usuario` throws right after the token is
        stored, and the catch replaces the success toast with the default error. */
    method FinishRequest(response: LoginResponse)
      modifies this, session
      ensures !cargando
      ensures response.Accepted? && response.usuario.Some? ==>
                && session.token == response.token
                && session.nombre == Some(response.usuario.value.nombre)
                && session.rol == response.usuario.value.rol
                && session.usuario == old(session.usuario)
                && toast == Some(SuccessToast(if Truthy(response.msg) then response.msg.value
                                              else "Inicio de sesión exitoso"))
                && navigatedTo == (if RouteForRole(response.usuario.value.rol).Some?
                                   then RouteForRole(response.usuario.value.rol) else old(navigatedTo))
      ensures response.Accepted? && response.usuario.None? ==>
                && session.token == response.token
                && session.nombre == old(session.nombre)
                && session.rol == old(session.rol)
                && session.usuario == old(session.usuario)
                && toast == Some(ErrorToast(FailureMessage(None)))
                && navigatedTo == old(navigatedTo)
      ensures response.Rejected? ==>
                && unchanged(session)
                && toast == Some(ErrorToast(FailureMessage(response.serverMsg)))
                && navigatedTo == old(navigatedTo)
    {
      match response {
        case Accepted(msg, token, datos) =>
          toast := Some(SuccessToast(if Truthy(msg) then msg.value else "Inicio de sesión exitoso"));
          session.SetToken(token);
          if datos.None? {
            toast := Some(ErrorToast(FailureMessage(None)));
            cargando := false;
            return;
          }
          var usuario := datos.value;
          session.SetNombre(Some(usuario.nombre));
          session.SetRol(usuario.rol);
          var route := RouteForRole(usuario.rol);
          if route.Some? {
            navigatedTo := route;
          }
        case Rejected(serverMsg) =>
          toast := Some(ErrorToast(FailureMessage(serverMsg)));
      }
      cargando := false;
    }
  }

  /** The whole submit: loading while the request is out, not loading after. */
  method OnSubmit(page: Page, response: LoginResponse)
    modifies page, page.session
    ensures !page.cargando
    ensures response.Accepted? && response.usuario.Some? && response.usuario.value.rol == Some("admin") ==>
              page.navigatedTo == Some("/admin")
    ensures response.Accepted? && response.usuario.Some? && response.usuario.value.rol == Some("paciente") ==>
              page.navigatedTo == Some("/paciente")
  {
    page.StartRequest();
    assert page.cargando;
    page.FinishRequest(response);
  }
}

/** The effect of src/pages/RedesSociales.jsx: read `token`, `usuario` and
    `rol` from the query string, store them and go to the role's page. */
module RedesSociales {
  import opened JsText
  import opened Storage
  import opened SessionSetters

  /** Where the social login goes: "/login" unless all three parameters are
      present, then by role. */
  function Destination(token: Option<string>, usuario: Option<string>, rol: Option<string>): (r: string)
    ensures !(Truthy(token) && Truthy(usuario) && Truthy(rol)) ==> r == "/login"
    ensures Truthy(token) && Truthy(usuario) && rol == Some("admin") ==> r == "/admin/perfil"
    ensures Truthy(token) && Truthy(usuario) && Truthy(rol) && rol != Some("admin") ==> r == "/paciente"
  {
    if Truthy(token) && Truthy(usuario) && Truthy(rol) then
      (if rol == Some("admin") then "/admin/perfil" else "/paciente")
    else "/login"
  }

  /** The effect. `decoded` is `JSON.parse(decodeURIComponent(usuario))`,
      None when that throws (the token is then already stored and no
      navigation happens). */
  method OnMount(session: Sink, token: Option<string>, usuario: Option<string>, rol: Option<string>,
                 decoded: Option<Usuario>)
    returns (navigatedTo: Option<string>)
    modifies session
    ensures !(Truthy(token) && Truthy(usuario) && Truthy(rol)) ==>
              unchanged(session) && navigatedTo == Some("/login")
    ensures Truthy(token) && Truthy(usuario) && Truthy(rol) && decoded.Some? ==>
              && session.token == token && session.usuario == decoded && session.rol == rol
              && session.nombre == old(session.nombre)
              && navigatedTo == Some(Destination(token, usuario, rol))
    ensures Truthy(token) && Truthy(usuario) && Truthy(rol) && decoded.None? ==>
              && session.token == token && navigatedTo == None
              && session.usuario == old(session.usuario) && session.rol == old(session.rol)
              && session.nombre == old(session.nombre)
  {
    if Truthy(token) && Truthy(usuario) && Truthy(rol) {
      session.SetToken(token);
      if decoded.None? {
        return None;
      }
      session.SetUsuario(decoded);
      session.SetRol(rol);
      if rol == Some("admin") {
        navigatedTo := Some("/admin/perfil");
      } else {
        navigatedTo := Some("/paciente");
      }
    } else {
      navigatedTo := Some("/login");
    }
  }
}

/** `fetchOAuthData` of src/pages/OAuthSuccess.jsx: fetch the session from
    the back end after the identity provider's redirect, store it, and go to
    the role's dashboard; any failure goes to the login page. */
module OAuthSuccess {
  import opened JsText
  import opened Storage
  import opened SessionSetters

  /** The fetch: it failed, or gave a body whose `token` and `usuario` may be missing. */
  datatype OAuthResponse = FetchFailed | Fetched(token: Option<string>, usuario: Option<Usuario>)

  /** Only the role "admin" goes to "/admin"; every other role, absent
      included, goes to "/paciente". */
  function RouteForRole(rol: Option<string>): (r: string)
    ensures r == "/admin" <==> rol == Some("admin")
    ensures r == "/admin" || r == "/paciente"
  {
    if rol == Some("admin") then "/admin" else "/paciente"
  }

  /** `String(token)` as `localStorage.setItem` stores it. The model has one
      value for both null and undefined and renders it as "undefined", the
      text of a missing `token` field; a `null` token would be stored as "null". */
  function StoredText(token: Option<string>): string
  {
    match token
    case Some(t) => t
    case None => "undefined"
  }

  method FetchOAuthData(session: Sink, storage: LocalStorage, response: OAuthResponse)
    returns (navigatedTo: string)
    modifies session, storage
    ensures response.FetchFailed? ==>
              unchanged(session) && unchanged(storage) && navigatedTo == "/login"
    // a body without `usuario` throws after the token is stored
    ensures response.Fetched? && response.usuario.None? ==>
              && session.token == response.token && unchanged(storage) && navigatedTo == "/login"
              && session.nombre == old(session.nombre) && session.rol == old(session.rol)
              && session.usuario == old(session.usuario)
    ensures response.Fetched? && response.usuario.Some? ==>
              && session.token == response.token
              && session.nombre == Some(response.usuario.value.nombre)
              && session.rol == response.usuario.value.rol
              && storage.items == old(storage.items)["token" := Raw(StoredText(response.token))]
                                                    ["usuario" := UserJson(response.usuario.value)]
              && navigatedTo == RouteForRole(response.usuario.value.rol)
  {
    match response
    case FetchFailed =>
      navigatedTo := "/login";
    case Fetched(token, usuario) =>
      session.SetToken(token);
      if usuario.None? {
        return "/login";
      }
      var u := usuario.value;
      session.SetNombre(Some(u.nombre));
      session.SetRol(u.rol);
      storage.SetItem("token", Raw(StoredText(token)));
      storage.SetItem("usuario", UserJson(u));
      navigatedTo := RouteForRole(u.rol);
  }
}
