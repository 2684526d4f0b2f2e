/** What a route guard does with a protected view: render it, or redirect. */
module Routing {

  const LoginPath: string := "/login"

  /** `children`, or `<Navigate to=... replace />`. */
  datatype Decision = Render | Redirect(to: string, replace: bool)

  /** Every guard denies with `<Navigate to="/login" replace />`. */
  const ToLogin: Decision := Redirect(LoginPath, true)
}

/** `RutaProtegida` of src/components/RutaProtegida.jsx. The token and the
    session role come from the store; the required role `rol` is the prop. */
module ComponentsGuard {
  import opened JsText
  import opened Routing

  function Decide(token: Option<string>, rolUsuario: Option<string>, rol: Option<string>): (d: Decision)
    // no token, or no session role: to the login page
    ensures !Truthy(token) || !Truthy(rolUsuario) ==> d == ToLogin
    // no required role: any session with token and role passes
    ensures Truthy(token) && Truthy(rolUsuario) && !Truthy(rol) ==> d == Render
    // a required role passes exactly the sessions holding that role
    ensures Truthy(rol) ==> (d == Render <==> Truthy(token) && rolUsuario == rol)
    // every denial is the same redirect
    ensures d.Redirect? ==> d == ToLogin
  {
    if !Truthy(token) || !Truthy(rolUsuario) then ToLogin
    else if Truthy(rol) && rolUsuario != rol then ToLogin
    else Render
  }
}

/** `RutaProtegida` of src/routes/RutaProtegida.jsx, which compares roles with
    strict `!==` and has no "no required role" case. The store's missing role
    is null and a missing prop is undefined, so they are never strictly equal. */
module RoutesGuard {
  import opened JsText
  import opened Routing
  import ComponentsGuard

  /** `rolUsuario === rol` for a store value (None is null) and a prop (None is undefined). */
  predicate StrictEquals(rolUsuario: Option<string>, rol: Option<string>)
  {
    rolUsuario.Some? && rol.Some? && rolUsuario.value == rol.value
  }

  function Decide(token: Option<string>, rolUsuario: Option<string>, rol: Option<string>): (d: Decision)
    ensures !Truthy(token) ==> d == ToLogin
    ensures Truthy(token) ==> (d == Render <==> rol.Some? && rolUsuario == rol)
    // without a required role nobody passes
    ensures rol.None? ==> d == ToLogin
    ensures d.Redirect? ==> d == ToLogin
  {
    if !Truthy(token) then ToLogin
    else if !StrictEquals(rolUsuario, rol) then ToLogin
    else Render
  }

  /** The two versions of the guard disagree exactly when a token is present
      and either no (truthy) role is required of a session holding a role, or
      both the session role and the required role are the empty string. */
  lemma DiffersFromComponentsGuard(token: Option<string>, rolUsuario: Option<string>, rol: Option<string>)
    ensures Decide(token, rolUsuario, rol) != ComponentsGuard.Decide(token, rolUsuario, rol) <==>
            Truthy(token) &&
            ((Truthy(rolUsuario) && !Truthy(rol)) || (rolUsuario == Some("") && rol == Some("")))
  {
  }

  /** With a non-empty required role, as every guarded route of the
      application passes, the two versions agree. */
  lemma AgreesWhenRoleRequired(token: Option<string>, rolUsuario: Option<string>, rol: Option<string>)
    requires Truthy(rol)
    ensures Decide(token, rolUsuario, rol) == ComponentsGuard.Decide(token, rolUsuario, rol)
  {
  }
}

/** The guard of src/context/storeAuth.jsx: a `cargando` flag, true until a
    timer fires, shows a placeholder; after it, the allow/deny decision. */
module LoadingGuard {
  import opened JsText
  import opened Routing
  import ComponentsGuard

  datatype Screen = Loading | Shown(decision: Decision)

  /** The decision once loading is over. */
  function AfterLoading(token: Option<string>, rolUsuario: Option<string>, rol: Option<string>): (d: Decision)
    ensures !Truthy(token) || !Truthy(rolUsuario) ==> d == ToLogin
    ensures Truthy(rol) && rolUsuario != rol ==> d == ToLogin
    ensures Truthy(token) && Truthy(rolUsuario) && (!Truthy(rol) || rolUsuario == rol) ==> d == Render
  {
    if !Truthy(token) || !Truthy(rolUsuario) then ToLogin
    else if Truthy(rol) && rolUsuario != rol then ToLogin
    else Render
  }

  /** Once loaded, this guard decides as the guard of src/components does. */
  lemma AfterLoadingIsComponentsGuard(token: Option<string>, rolUsuario: Option<string>, rol: Option<string>)
    ensures AfterLoading(token, rolUsuario, rol) == ComponentsGuard.Decide(token, rolUsuario, rol)
  {
  }

  class Guard {
    var cargando: bool

    constructor ()
      ensures cargando
    {
      cargando := true;
    }

    /** The 100 ms timer of the mount effect fires. */
    method TimerFires()
      modifies this
      ensures !cargando
    {
      cargando := false;
    }

    /** What the guard renders for the current store values and prop. */
    function View(token: Option<string>, rolUsuario: Option<string>, rol: Option<string>): (s: Screen)
      reads this
      ensures cargando <==> s == Loading
      ensures !cargando ==> s == Shown(AfterLoading(token, rolUsuario, rol))
    {
      if cargando then Loading else Shown(AfterLoading(token, rolUsuario, rol))
    }
  }
}
