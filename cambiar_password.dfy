/** The administrator's password change of src/pages/admin/CambiarPassword.jsx:
    three password fields, the profile id it needs, and the guards of `onSubmit`. */
module CambiarPasswordAdmin {
  import opened JsText
  import opened Ui
  import opened FormRules

  const AnteriorRules: Rules :=
    Rules(Some("La contraseña anterior es obligatoria"), Some(LengthRule(6, "Mínimo 6 caracteres")), None, None, None)

  const NuevoRules: Rules :=
    Rules(Some("La nueva contraseña es obligatoria"), Some(LengthRule(6, "Mínimo 6 caracteres")), None, None, None)

  /** The confirmation must equal the new password as currently typed. */
  function ConfirmarRules(passwordNuevo: string): Rules
  {
    Rules(Some("Confirmar contraseña es obligatorio"), None, None, None,
          Some((v: string) => if v == passwordNuevo then None else Some("Las contraseñas no coinciden")))
  }

  /** Old and new passwords are accepted exactly from six UTF-16 code units on. */
  lemma PasswordsAccepted(s: string)
    ensures FieldError(s, AnteriorRules).None? <==> Utf16Length(s) >= 6
    ensures FieldError(s, NuevoRules).None? <==> Utf16Length(s) >= 6
  {
  }

  /** The confirmation is accepted exactly when it is non-empty and equals the new password. */
  lemma ConfirmarAccepted(v: string, passwordNuevo: string)
    ensures FieldError(v, ConfirmarRules(passwordNuevo)).None? <==> v != "" && v == passwordNuevo
    ensures v != "" && v != passwordNuevo ==> FieldError(v, ConfirmarRules(passwordNuevo)) == Some("Las contraseñas no coinciden")
  {
  }

  /** The body of `PUT /admin/actualizar-password`: the confirmation is not sent. */
  datatype PasswordChange = PasswordChange(passwordAnterior: string, passwordNuevo: string)

  /** `data._id || data.id` of the profile response. */
  datatype Perfil = Perfil(underscoreId: Option<string>, id: Option<string>)

  function AdminIdOf(p: Perfil): (r: Option<string>)
    ensures Truthy(p.underscoreId) ==> r == p.underscoreId
    ensures !Truthy(p.underscoreId) ==> r == p.id
  {
    if Truthy(p.underscoreId) then p.underscoreId else p.id
  }

  datatype UpdateOutcome = Updated(msg: Option<string>) | UpdateFailed(serverMsg: Option<string>)

  class Page {
    var adminId: Option<string>
    var cargando: bool
    var passwordAnterior: string
    var passwordNuevo: string
    var confirmarPassword: string
    var toast: Option<Toast>

    constructor ()
      ensures adminId == None && cargando && toast == None
      ensures passwordAnterior == "" && passwordNuevo == "" && confirmarPassword == ""
    {
      adminId, cargando, toast := None, true, None;
      passwordAnterior, passwordNuevo, confirmarPassword := "", "", "";
    }

    /** All three fields pass their rules, as `handleSubmit` requires before calling `onSubmit`. */
    predicate FormValid()
      reads this
    {
      && FieldError(passwordAnterior, AnteriorRules).None?
      && FieldError(passwordNuevo, NuevoRules).None?
      && FieldError(confirmarPassword, ConfirmarRules(passwordNuevo)).None?
    }

    /** `cargarPerfil` once the request settles: the id (an error toast when
        it is missing), or an error toast; loading ends either way. */
    method ProfileLoaded(perfil: Option<Perfil>)
      modifies this`adminId, this`cargando, this`toast
      ensures !cargando
      ensures perfil.Some? ==> adminId == AdminIdOf(perfil.value)
      ensures perfil.Some? && !Truthy(AdminIdOf(perfil.value)) ==>
                toast == Some(ErrorToast("No se pudo obtener el ID del administrador"))
      ensures perfil.Some? && Truthy(AdminIdOf(perfil.value)) ==> toast == old(toast)
      ensures perfil.None? ==> adminId == old(adminId) && toast == Some(ErrorToast("Error al cargar datos del perfil"))
    {
      match perfil {
        case Some(p) =>
          var id := AdminIdOf(p);
          if !Truthy(id) {
            toast := Some(ErrorToast("No se pudo obtener el ID del administrador"));
          }
          adminId := id;
        case None =>
          toast := Some(ErrorToast("Error al cargar datos del perfil"));
      }
      cargando := false;
    }

    /** `handleSubmit(onSubmit)`: nothing is sent unless the form is valid,
        an admin id is known and the confirmation matches; a successful
        update clears the form. */
    method Submit(outcome: UpdateOutcome) returns (sent: Option<PasswordChange>)
      modifies this`passwordAnterior, this`passwordNuevo, this`confirmarPassword, this`toast
      ensures sent.Some? <==> old(FormValid()) && Truthy(adminId)
      ensures sent.Some? ==> sent.value == PasswordChange(old(passwordAnterior), old(passwordNuevo))
      ensures old(FormValid()) && !Truthy(adminId) ==>
                toast == Some(ErrorToast("No se pudo detectar el ID del admin"))
      ensures sent.Some? && outcome.Updated? ==>
                passwordAnterior == "" && passwordNuevo == "" && confirmarPassword == "" &&
                toast == Some(SuccessToast(OrElse(outcome.msg, "Contraseña actualizada correctamente")))
      ensures sent.Some? && outcome.UpdateFailed? ==>
                toast == Some(ErrorToast(OrElse(outcome.serverMsg, "Error al actualizar contraseña")))
      ensures !old(FormValid()) ==> toast == old(toast)
      ensures sent.None? || outcome.UpdateFailed? ==>
                passwordAnterior == old(passwordAnterior) && passwordNuevo == old(passwordNuevo) &&
                confirmarPassword == old(confirmarPassword)
    {
      if !FormValid() {
        return None;
      }
      if !Truthy(adminId) {
        toast := Some(ErrorToast("No se pudo detectar el ID del admin"));
        return None;
      }
      if passwordNuevo != confirmarPassword {
        // the mismatch toast of `onSubmit` cannot be reached: the confirmation
        // rule has already demanded equality
        assert false;
      }
      sent := Some(PasswordChange(passwordAnterior, passwordNuevo));
      match outcome {
        case Updated(msg) =>
          toast := Some(SuccessToast(OrElse(msg, "Contraseña actualizada correctamente")));
          passwordAnterior, passwordNuevo, confirmarPassword := "", "", "";
        case UpdateFailed(serverMsg) =>
          toast := Some(ErrorToast(OrElse(serverMsg, "Error al actualizar contraseña")));
      }
    }
  }

  /** The field rules already make the confirmation equal the new password,
      so the mismatch guard of `onSubmit` never fires after them. */
  lemma MismatchGuardUnreachable(passwordAnterior: string, passwordNuevo: string, confirmarPassword: string)
    requires FieldError(confirmarPassword, ConfirmarRules(passwordNuevo)).None?
    ensures passwordNuevo == confirmarPassword
  {
    ConfirmarAccepted(confirmarPassword, passwordNuevo);
  }
}

/** The patient's password change of src/pages/paciente/CambiarPasswordPaciente.jsx. */
module CambiarPasswordPaciente {
  import opened JsText
  import opened Ui
  import opened FormRules

  const AnteriorRules: Rules := RequiredOnly("Campo obligatorio")

  const NuevoRules: Rules :=
    Rules(Some("Campo obligatorio"), Some(LengthRule(6, "Debe tener al menos 6 caracteres")), None, None, None)

  /** The old password only has to be present; the new one needs six UTF-16 code units. */
  lemma PasswordsAccepted(s: string)
    ensures FieldError(s, AnteriorRules).None? <==> s != ""
    ensures FieldError(s, NuevoRules).None? <==> Utf16Length(s) >= 6
  {
  }

  /** The warning under the new password: both typed, and equal. */
  predicate SameWarning(anterior: Option<string>, nueva: Option<string>)
  {
    Truthy(anterior) && Truthy(nueva) && anterior == nueva
  }

  /** `data.id || data._id` of the profile response. */
  datatype Perfil = Perfil(id: Option<string>, underscoreId: Option<string>)

  function PacienteIdOf(p: Perfil): (r: Option<string>)
    ensures Truthy(p.id) ==> r == p.id
    ensures !Truthy(p.id) ==> r == p.underscoreId
  {
    if Truthy(p.id) then p.id else p.underscoreId
  }

  datatype ProfileOutcome = ProfileOk(perfil: Perfil) | ProfileFailed(serverMsg: Option<string>)

  /** The body of `PUT /pacientes/actualizar-password/:id`: the whole form. */
  datatype PasswordChange = PasswordChange(passwordAnterior: string, passwordNuevo: string)

  datatype UpdateOutcome = Updated(msg: Option<string>) | UpdateFailed(serverMsg: Option<string>)

  class Page {
    const token: Option<string>
    var pacienteId: Option<string>
    var cargando: bool
    var passwordAnterior: string
    var passwordNuevo: string
    var toast: Option<Toast>

    constructor (token: Option<string>)
      ensures this.token == token && pacienteId == None && cargando && toast == None
      ensures passwordAnterior == "" && passwordNuevo == ""
    {
      this.token := token;
      pacienteId, cargando, toast := None, true, None;
      passwordAnterior, passwordNuevo := "", "";
    }

    predicate FormValid()
      reads this
    {
      FieldError(passwordAnterior, AnteriorRules).None? && FieldError(passwordNuevo, NuevoRules).None?
    }

    /** Whether the same-password warning is on screen. */
    predicate ShowsSameWarning()
      reads this
    {
      SameWarning(Some(passwordAnterior), Some(passwordNuevo))
    }

    /** `cargarPerfil`: without a token nothing is requested; otherwise the
        id from the response, or an error toast. Loading ends either way. */
    method LoadProfile(outcome: ProfileOutcome)
      modifies this`pacienteId, this`cargando, this`toast
      ensures !cargando
      ensures !Truthy(token) ==>
                pacienteId == old(pacienteId) &&
                toast == Some(ErrorToast("No hay token de autenticación. Inicia sesión nuevamente."))
      ensures Truthy(token) && outcome.ProfileOk? ==> pacienteId == PacienteIdOf(outcome.perfil) && toast == old(toast)
      ensures Truthy(token) && outcome.ProfileFailed? ==>
                pacienteId == old(pacienteId) &&
                toast == Some(ErrorToast(OrElse(outcome.serverMsg, "No se pudo obtener el perfil")))
    {
      if !Truthy(token) {
        toast := Some(ErrorToast("No hay token de autenticación. Inicia sesión nuevamente."));
        cargando := false;
        return;
      }
      match outcome {
        case ProfileOk(p) =>
          pacienteId := PacienteIdOf(p);
        case ProfileFailed(serverMsg) =>
          toast := Some(ErrorToast(OrElse(serverMsg, "No se pudo obtener el perfil")));
      }
      cargando := false;
    }

    /** `handleSubmit(onSubmit)`: sent only for a valid form with a token, a
        patient id and a new password different from the old one. */
    method Submit(outcome: UpdateOutcome) returns (sent: Option<PasswordChange>)
      modifies this`passwordAnterior, this`passwordNuevo, this`toast
      ensures sent.Some? <==>
                old(FormValid()) && Truthy(token) && Truthy(pacienteId) && old(passwordAnterior) != old(passwordNuevo)
      ensures sent.Some? ==> sent.value == PasswordChange(old(passwordAnterior), old(passwordNuevo))
      ensures old(FormValid()) && !Truthy(token) ==> toast == Some(ErrorToast("No hay token, vuelve a iniciar sesión."))
      ensures old(FormValid()) && Truthy(token) && !Truthy(pacienteId) ==>
                toast == Some(ErrorToast("No se pudo detectar tu ID de usuario."))
      ensures old(FormValid()) && Truthy(token) && Truthy(pacienteId) && old(passwordAnterior) == old(passwordNuevo) ==>
                toast == Some(ErrorToast("La nueva contraseña no puede ser igual a la anterior."))
      ensures sent.Some? && outcome.Updated? ==>
                passwordAnterior == "" && passwordNuevo == "" &&
                toast == Some(SuccessToast(OrElse(outcome.msg, "Contraseña actualizada correctamente")))
      ensures sent.Some? && outcome.UpdateFailed? ==>
                toast == Some(ErrorToast(OrElse(outcome.serverMsg, "No se pudo actualizar la contraseña")))
      ensures !old(FormValid()) ==> toast == old(toast)
      ensures sent.None? || outcome.UpdateFailed? ==>
                passwordAnterior == old(passwordAnterior) && passwordNuevo == old(passwordNuevo)
    {
      if !FormValid() {
        return None;
      }
      if !Truthy(token) {
        toast := Some(ErrorToast("No hay token, vuelve a iniciar sesión."));
        return None;
      }
      if !Truthy(pacienteId) {
        toast := Some(ErrorToast("No se pudo detectar tu ID de usuario."));
        return None;
      }
      if passwordAnterior == passwordNuevo {
        toast := Some(ErrorToast("La nueva contraseña no puede ser igual a la anterior."));
        return None;
      }
      sent := Some(PasswordChange(passwordAnterior, passwordNuevo));
      match outcome {
        case Updated(msg) =>
          toast := Some(SuccessToast(OrElse(msg, "Contraseña actualizada correctamente")));
          passwordAnterior, passwordNuevo := "", "";
        case UpdateFailed(serverMsg) =>
          toast := Some(ErrorToast(OrElse(serverMsg, "No se pudo actualizar la contraseña")));
      }
    }
  }

  /** A valid form showing the same-password warning is refused by `onSubmit`,
      and a valid form is refused for sameness only while the warning shows. */
  lemma WarningMatchesGuard(anterior: string, nuevo: string)
    requires FieldError(anterior, AnteriorRules).None? && FieldError(nuevo, NuevoRules).None?
    ensures SameWarning(Some(anterior), Some(nuevo)) <==> anterior == nuevo
  {
  }
}
