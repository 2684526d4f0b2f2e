# MentalAPP front end: a Dafny model of its decision and state logic

MentalAPP is a React single-page application. Patients use it to sign up, log in, consume
resources an administrator publishes (content to watch, questionnaires to answer) and chat with
the administrator. Administrators use it to manage patients, resources and reports. This project
models, in Dafny, the parts of that front end that decide or change something:

- the three route guards;
- the persisted session store, the `usuario` context and the three login flows;
- the resource builder and the resource edit modal;
- the lists with their filters, paging, report summaries and answer assembly;
- the sign-up and password-change form rules;
- the treatments store;
- the sidebars;
- the two chats.

Each source file becomes one module named after the file:

- Pure decisions become functions. Each has a named result and `ensures` clauses saying what the
  result means.
- A component's state becomes a `class`. Its fields are the `useState` variables. Each handler is a
  method with a `modifies` frame that states the whole new state.
- The browser's `localStorage` is the class `Storage.LocalStorage` over a `map<string, Item>`.
- Every HTTP request, socket event, timer and dialog answer is a parameter of the method that
  handles its outcome.

JavaScript semantics are written out in module `JsText`:

- truthiness: null, undefined and `""` are falsy;
- `||` defaults versus `??`;
- strict `===`;
- `trim`, ASCII `toLowerCase`, `includes`, `replace` of the first occurrence;
- `filter`, `splice`.

Both `null` and `undefined` are `None`. In src/routes/RutaProtegida.jsx the store's missing role is
null and a missing `rol` prop is undefined. So `rolUsuario !== rol` holds whenever the prop is
missing, and that guard's `Decide` lets nobody through without a required role.

## Model

| member | source | states |
|---|---|---|
| ComponentsGuard.Decide | src/components/RutaProtegida.jsx:4-15 | No token or no session role redirects to "/login" with replace. With no required role, any session with both passes. With a required role, access is granted exactly when the session role equals it. Every denial is the same redirect. |
| RoutesGuard.Decide | src/routes/RutaProtegida.jsx:4-19 | No token redirects to "/login". With a token, access is granted exactly when a required role is given and the session role strictly equals it. Without a required role nobody passes. |
| RoutesGuard.DiffersFromComponentsGuard | src/routes/RutaProtegida.jsx:9-16 | The two guard files disagree exactly in two cases, both with a token present: (a) the session has a role and no truthy role is required; (b) both roles are the empty string. |
| RoutesGuard.AgreesWhenRoleRequired | src/routes/RutaProtegida.jsx:14-19 | For a non-empty required role, both guard files decide alike. |
| LoadingGuard.AfterLoading | src/context/storeAuth.jsx:20-28 | After loading: no token or no role redirects; a truthy required role that differs from the session role redirects; every other case renders. |
| LoadingGuard.AfterLoadingIsComponentsGuard | src/context/storeAuth.jsx:20-28 | Once loaded, this guard decides exactly as src/components/RutaProtegida.jsx does. |
| LoadingGuard.Guard.constructor | src/context/storeAuth.jsx:7 | `cargando` starts true. |
| LoadingGuard.Guard.TimerFires | src/context/storeAuth.jsx:9-16 | The timer sets `cargando` to false, and it only ever moves to false. |
| LoadingGuard.Guard.View | src/context/storeAuth.jsx:18-28 | The loading placeholder shows exactly while `cargando` holds. Otherwise the after-loading decision shows. |
| SessionStore.Rehydrated | src/store/storeAuth.jsx:14-16 | A state is read back exactly when the key "auth-storage" holds a persisted session, and it is that session. |
| SessionStore.AuthStore.constructor | src/store/storeAuth.jsx:5-17 | Token, user and rol start null, unless "auth-storage" holds a session, which is then restored and stays in sync. |
| SessionStore.AuthStore.SetAuth | src/store/storeAuth.jsx:11 | `setAuth` sets exactly token, user and rol. It writes the new state under "auth-storage" and changes no other key. |
| SessionStore.AuthStore.Logout | src/store/storeAuth.jsx:12 | `logout` sets all three fields to null and persists that state. |
| SessionStore.LogoutIdempotent | src/store/storeAuth.jsx:12 | A second logout leaves the storage exactly as one logout does: the initial state under "auth-storage", every other key untouched. |
| SessionStore.SetAuthThenLogout | src/store/storeAuth.jsx:8-12 | `setAuth` then `logout` gives the initial state, also as persisted. |
| SessionStore.ReloadRestoresSession | src/store/storeAuth.jsx:11-16 | A store created after a `setAuth` over the same storage holds that session. |
| AuthContext.AuthProvider.constructor | src/context/AuthContext.jsx:6-7 | `usuario` starts null and `cargando` true. |
| AuthContext.AuthProvider.LoadStored | src/context/AuthContext.jsx:9-16 | A stored "usuario" becomes `usuario`. A missing one leaves it null. `cargando` ends false in both cases. An unparsable entry throws before that, so nothing changes. |
| AuthContext.AuthProvider.Login | src/context/AuthContext.jsx:18-21 | `login(d)` sets `usuario` to d and writes it under "usuario". No other key changes. |
| AuthContext.AuthProvider.Logout | src/context/AuthContext.jsx:23-28 | `logout` clears `usuario` and removes exactly "usuario", "rol" and "token". Every other key keeps its value. |
| AuthContext.LoginThenReload | src/context/AuthContext.jsx:9-21 | A provider mounted after a `login` restores the same user and stops loading. |
| AuthContext.LogoutThenReload | src/context/AuthContext.jsx:9-28 | A provider mounted after a `logout` finds nobody and stops loading. |
| SessionSetters.Sink.SetToken | src/pages/Login.jsx:16-18 | The `setToken` the pages call overwrites the token only. |
| SessionSetters.Sink.SetNombre | src/pages/Login.jsx:16-18 | `setNombre` overwrites the name only. |
| SessionSetters.Sink.SetRol | src/pages/Login.jsx:16-18 | `setRol` overwrites the role only. |
| SessionSetters.Sink.SetUsuario | src/pages/RedesSociales.jsx:9 | `setUsuario` overwrites the user only. |
| LoginPage.RouteForRole | src/pages/Login.jsx:34-39 | "admin" goes to "/admin" and "paciente" to "/paciente", each if and only if. Any other role causes no navigation. |
| LoginPage.FailureMessage | src/pages/Login.jsx:41-42 | The error toast is the server's `msg` when truthy, else "Error al iniciar sesión". |
| LoginPage.Page.constructor | src/pages/Login.jsx:13 | The page starts not loading, with no toast and no navigation. |
| LoginPage.Page.StartRequest | src/pages/Login.jsx:22 | `cargando` is true while the request is out. |
| LoginPage.Page.FinishRequest | src/pages/Login.jsx:24-45 | On success, token, nombre and rol come from the response, the success toast shows and the page navigates by role. A success body without `usuario` throws after storing the token: nombre and rol are kept, there is no navigation, and the default error toast replaces the success one. On failure the session is untouched and the error toast shows. `cargando` ends false on every path. |
| LoginPage.OnSubmit | src/pages/Login.jsx:20-46 | The whole submit ends not loading. An admin lands on "/admin" and a patient on "/paciente". |
| RedesSociales.Destination | src/pages/RedesSociales.jsx:18-30 | Goes to "/login" unless token, usuario and rol are all truthy. Otherwise "admin" goes to "/admin/perfil" and every other role to "/paciente". |
| RedesSociales.OnMount | src/pages/RedesSociales.jsx:12-31 | A missing parameter stores nothing and navigates to "/login". Otherwise it stores token, parsed usuario and rol and navigates by role. An unparsable usuario stops after storing the token: usuario, rol and nombre keep their values and there is no navigation. |
| OAuthSuccess.RouteForRole | src/pages/OAuthSuccess.jsx:65-69 | Only "admin" goes to "/admin". Every other role, an absent one included, goes to "/paciente". |
| OAuthSuccess.FetchOAuthData | src/pages/OAuthSuccess.jsx:51-75 | On success: token, nombre and rol go to the session; exactly "token" and "usuario" are written to storage; navigation follows the role. A failed fetch goes to "/login" with nothing changed. A body without `usuario` goes to "/login" with only the token stored in the session: nombre, rol, usuario and the storage keep their values. |
| RecursosCrear.ChangePregunta | src/pages/admin/RecursosCrear.jsx:50-62 | Sets the named field. Switching to "abierta" empties the options. Switching to "opcion" turns an empty option list into [""] and keeps a non-empty one. The text is never touched by a type change. |
| RecursosCrear.PreguntaError | src/pages/admin/RecursosCrear.jsx:95-98 | A question has no complaint exactly when its text is not blank and, for "opcion", some option is not blank. |
| RecursosCrear.FirstPreguntaErrorNone | src/pages/admin/RecursosCrear.jsx:94-100 | The question loop finds no complaint exactly when no question has one. |
| RecursosCrear.FirstPreguntaErrorIsFirst | src/pages/admin/RecursosCrear.jsx:94-100 | A reported complaint is that of some question, and every earlier question has none. |
| RecursosCrear.Form.Validate | src/pages/admin/RecursosCrear.jsx:86-101 | The checks are a loop with early returns. The result is the first complaint, in this order: blank title, blank URL for "contenido", no questions, then the first bad question. When it passes, the title is not blank and every question is sound. |
| RecursosCrear.NormalizeOpcionesSpec | src/pages/admin/RecursosCrear.jsx:118-120 | The sent options are a subsequence of the trimmed options, so they keep their order. None is empty, each is already trimmed, and each is the trim of some original option. |
| RecursosCrear.NormalizeOpcionesComplete | src/pages/admin/RecursosCrear.jsx:118-120 | Nothing is lost: every option that is not blank is sent trimmed, and each trimmed text is sent as many times as it occurs among the trimmed options. |
| RecursosCrear.NormalizeOpcionesEmptyIff | src/pages/admin/RecursosCrear.jsx:96-120 | No option is sent exactly when the submit checks would find no valid option. |
| RecursosCrear.TrimAll | src/pages/admin/RecursosCrear.jsx:119 | Same length, and each element is the trim of the one at the same index. |
| RecursosCrear.NormalizePregunta | src/pages/admin/RecursosCrear.jsx:115-121 | The text is trimmed and the answer kind kept. "opcion" questions carry their normalised options and every other kind carries []. |
| RecursosCrear.NormalizePreguntas | src/pages/admin/RecursosCrear.jsx:115-121 | One normalised question per question, index for index. |
| RecursosCrear.BuildPayload | src/pages/admin/RecursosCrear.jsx:103-123 | Title, type and description are sent as typed. The data is the contenido, with URL and source trimmed, exactly when the type is "contenido", otherwise the normalised questions. |
| RecursosCrear.AcceptedPayloadIsWellFormed | src/pages/admin/RecursosCrear.jsx:86-123 | Whatever passes the checks is sent well formed: a non-empty URL, or at least one question, with no empty text and every "opcion" question carrying an option. |
| RecursosCrear.Form.constructor | src/pages/admin/RecursosCrear.jsx:18-32 | The form starts as a "contenido" with a video default, and one blank "opcion" question with one empty option. |
| RecursosCrear.Form.AddPregunta | src/pages/admin/RecursosCrear.jsx:37-42 | Appends {texto:"", opciones:[""], tipoRespuesta:"opcion"}. Earlier questions are unchanged. |
| RecursosCrear.Form.DeletePregunta | src/pages/admin/RecursosCrear.jsx:44-48 | Removes exactly index idx and keeps the rest in order. An index past the end changes nothing. |
| RecursosCrear.Form.ChangePreguntaAt | src/pages/admin/RecursosCrear.jsx:50-62 | Only question idx changes, as ChangePregunta says. |
| RecursosCrear.Form.AddOpcion | src/pages/admin/RecursosCrear.jsx:64-68 | Appends "" to question idx only. Its text and type are kept. |
| RecursosCrear.Form.ChangeOpcion | src/pages/admin/RecursosCrear.jsx:70-74 | Replaces only option oidx of question idx. |
| RecursosCrear.Form.RemoveOpcion | src/pages/admin/RecursosCrear.jsx:76-80 | Removes exactly option oidx of question idx. |
| RecursosCrear.Form.Submit | src/pages/admin/RecursosCrear.jsx:83-123 | No request when a check fails. Otherwise exactly the built payload is sent. |
| EditarRecurso.InitialContenido | src/components/admin/EditarRecursosModal.jsx:20-24 | For "contenido", each of url, tipo and fuente comes from the reference when truthy. Otherwise the defaults are "", "video" and "". |
| EditarRecurso.InitialCuestionario | src/components/admin/EditarRecursosModal.jsx:26-30 | For "cuestionario", the reference's questions or []. Otherwise []. |
| EditarRecurso.PayloadOpciones | src/components/admin/EditarRecursosModal.jsx:85 | Drops exactly the empty strings, in order and without trimming: every other option is kept as many times as it occurs. Missing options give []. |
| EditarRecurso.PayloadPregunta | src/components/admin/EditarRecursosModal.jsx:83-87 | The text is kept as typed, the options are filtered, and a missing answer kind becomes "opcion". |
| EditarRecurso.PayloadPreguntas | src/components/admin/EditarRecursosModal.jsx:83-87 | One payload question per question, index for index. |
| EditarRecurso.BlankOptionKeptOnEdit | src/components/admin/EditarRecursosModal.jsx:85 | An option "  " is sent by the edit form and dropped by the builder. |
| EditarRecurso.SavingUnchangedKeepsCreatedQuestions | src/components/admin/EditarRecursosModal.jsx:83-87 | Saving a builder-made questionnaire without edits sends back the questions the builder sent. |
| EditarRecurso.Modal.constructor | src/components/admin/EditarRecursosModal.jsx:16-30 | Title and description come from the resource or default to "". Contenido and questions are derived as above. |
| EditarRecurso.Modal.AddPregunta | src/components/admin/EditarRecursosModal.jsx:37-42 | Appends {texto:"", opciones:[], tipoRespuesta:"opcion"}, which has no option. |
| EditarRecurso.Modal.ChangeTexto | src/components/admin/EditarRecursosModal.jsx:44-48 | Sets only the text of question idx. |
| EditarRecurso.Modal.ChangeTipoRespuesta | src/components/admin/EditarRecursosModal.jsx:44-48 | Sets only the answer kind. The options are not touched, not even for "abierta". |
| EditarRecurso.Modal.AddOpcion | src/components/admin/EditarRecursosModal.jsx:50-54 | Appends "" to the options of question idx, a missing list counting as []. Nothing else changes. |
| EditarRecurso.Modal.ChangeOpcion | src/components/admin/EditarRecursosModal.jsx:56-60 | Replaces only option oidx of question idx. |
| EditarRecurso.Modal.DeletePregunta | src/components/admin/EditarRecursosModal.jsx:62-66 | Removes exactly index idx. |
| EditarRecurso.Modal.BuildPayload | src/components/admin/EditarRecursosModal.jsx:72-89 | Title and description are sent as typed. The data holds the contenido exactly when the resource is "contenido", otherwise the payload questions. |
| RecursosAdmin.WithoutId | src/pages/admin/RecursosAdmin.jsx:40 | Every resource with the id goes and every other stays, in order and as many times as it occurs. |
| RecursosAdmin.WithoutIdIdempotent | src/pages/admin/RecursosAdmin.jsx:40 | Removing the same id again removes nothing more. |
| RecursosAdmin.Page.constructor | src/pages/admin/RecursosAdmin.jsx:9-10 | An empty list, loading. |
| RecursosAdmin.Page.Loaded | src/pages/admin/RecursosAdmin.jsx:15-27 | The fetched list, or the old list with an error toast. Loading ends either way. |
| RecursosAdmin.Page.Eliminar | src/pages/admin/RecursosAdmin.jsx:33-45 | A declined confirm sends nothing and changes nothing. A failed delete keeps the list. A successful one removes that id, as WithoutId says. |
| PacientesListar.Filtrados | src/pages/admin/PacientesListar.jsx:58-67 | A term blank after trim returns the list unchanged. Otherwise the result is exactly the patients whose lowercased nombre, apellido or email (missing counts as "") contains the term, as a subsequence of the input, each as many times as it occurs there. |
| PacientesListar.FiltradosIgnoresCase | src/pages/admin/PacientesListar.jsx:59 | Lowercasing the search text does not change the result. |
| PacientesListar.EditDefaults | src/pages/admin/PacientesListar.jsx:276-281 | Each string is the patient's value or "". `activo` is the patient's value, true only when missing, and false is kept. |
| PacientesListar.Page.constructor | src/pages/admin/PacientesListar.jsx:26-35 | Starts loading, with an empty list and filter, and every dialog closed with no id. |
| PacientesListar.Page.Shown | src/pages/admin/PacientesListar.jsx:58-67 | The rows shown are a subsequence of the patients. |
| PacientesListar.Page.Loaded | src/pages/admin/PacientesListar.jsx:37-51 | The list, or [] for a null body. A failure keeps the list and shows the server's message or a default. Loading ends either way. |
| PacientesListar.Page.Ver | src/pages/admin/PacientesListar.jsx:70-73 | Selects the patient and opens the view dialog. |
| PacientesListar.Page.Editar | src/pages/admin/PacientesListar.jsx:76-79 | Selects the patient and opens the edit dialog. |
| PacientesListar.Page.ConfirmarBaja | src/pages/admin/PacientesListar.jsx:81-84 | Records the id and opens the confirm dialog. |
| PacientesListar.Page.CancelarBaja | src/pages/admin/PacientesListar.jsx:245 | Closes the confirm dialog. The recorded id stays. |
| PacientesListar.Page.DarDeBaja | src/pages/admin/PacientesListar.jsx:86-100 | Success closes the dialog and clears the id. Failure keeps both and shows the error. |
| UtilizarRecurso.Filtrados | src/pages/paciente/UtilizarRecurso.jsx:36-39 | "todos" returns the list unchanged. Any other filter returns exactly the resources of that type, in order, each as many times as it occurs. |
| UtilizarRecurso.RespuestasArray | src/pages/paciente/UtilizarRecurso.jsx:91-94 | One entry per question in question order. Each carries the question's id and its answer, or "" when unanswered. |
| UtilizarRecurso.AnswerChangesOnlyItsEntries | src/pages/paciente/UtilizarRecurso.jsx:91-94 | Answering question q changes only the entries for q in the submitted list. |
| UtilizarRecurso.VistaContenido | src/pages/paciente/UtilizarRecurso.jsx:124-145 | A "video" whose URL contains "youtube" is embedded with the rewritten source. Other videos play in a video element. Every other kind is a link. |
| UtilizarRecurso.EmbedKeepsVideoId | src/pages/paciente/UtilizarRecurso.jsx:129 | The first "watch?v=" becomes "embed/". The prefix and the video id are kept. |
| UtilizarRecurso.Page.constructor | src/pages/paciente/UtilizarRecurso.jsx:9-15 | Starts loading, with filter "todos", no selection or detail, and no answers. |
| UtilizarRecurso.Page.Loaded | src/pages/paciente/UtilizarRecurso.jsx:18-34 | The list, or [] for a null body. A failure shows an error. Loading ends either way. |
| UtilizarRecurso.Page.Shown | src/pages/paciente/UtilizarRecurso.jsx:36-39 | The resources shown are a subsequence of the list. |
| UtilizarRecurso.Page.AbrirModal | src/pages/paciente/UtilizarRecurso.jsx:42-46 | Selects the resource and resets the answers to {} and the detail to null. |
| UtilizarRecurso.Page.DetalleCargado | src/pages/paciente/UtilizarRecurso.jsx:48-56 | The fetched detail, or an error toast. |
| UtilizarRecurso.Page.CerrarModal | src/pages/paciente/UtilizarRecurso.jsx:59-63 | Clears the selection, the detail and the answers. |
| UtilizarRecurso.Page.Responder | src/pages/paciente/UtilizarRecurso.jsx:163-165 | Updates only key q of the answers. |
| UtilizarRecurso.Page.EnviarCuestionario | src/pages/paciente/UtilizarRecurso.jsx:86-112 | Does nothing without both a selection and a detail. Otherwise it sends the answer list of the detail's questions, and a success closes the modal. |
| UtilizarRecurso.Page.MarcarVisto | src/pages/paciente/UtilizarRecurso.jsx:66-83 | Does nothing without a selection. Otherwise it sends the resource id, and a success closes the modal. |
| AdminReportes.ResumenContenido | src/pages/admin/AdminReportes.jsx:78-81 | The content summary starts with "Visto" exactly when the result says seen, and otherwise with "No visto". |
| AdminReportes.ResumenCuestionario | src/pages/admin/AdminReportes.jsx:84-85 | The summary is "Respuestas: " followed by a decimal that reads back as the answer count, 0 when `respuestas` is not an array. |
| AdminReportes.TotalPagesOf | src/pages/admin/AdminReportes.jsx:37 | A missing or zero `totalPages` gives 1. Otherwise its value. |
| AdminReportes.Page.constructor | src/pages/admin/AdminReportes.jsx:11-20 | Page 1 of 1, an empty list, the modal hidden. |
| AdminReportes.Page.Anterior | src/pages/admin/AdminReportes.jsx:169 | The new page is max(1, page-1) and keeps 1 ≤ page ≤ totalPages. |
| AdminReportes.Page.Siguiente | src/pages/admin/AdminReportes.jsx:176 | The new page is min(totalPages, page+1) and keeps 1 ≤ page ≤ totalPages. |
| AdminReportes.Page.SetSearch | src/pages/admin/AdminReportes.jsx:96 | Typing a search resets page to 1. |
| AdminReportes.Page.Loaded | src/pages/admin/AdminReportes.jsx:29-44 | `items` or [], and `totalPages` or 1. A failure keeps both and shows an error. Loading ends either way. |
| AdminReportes.Page.VerDetalle | src/pages/admin/AdminReportes.jsx:67-70 | Shows the modal with that report. |
| AdminReportes.Page.CloseModal | src/pages/admin/AdminReportes.jsx:72-75 | Hides the modal and clears the detail. |
| FormRules.FieldError | src/pages/Register.jsx:131-221 | No message exactly when every rule holds. An empty value gets the required message. A value longer than the maximum gets the maximum's message. Lengths count UTF-16 code units, as `value.length` does. |
| Register.EmailPatternIsRegex | src/pages/Register.jsx:201 | The scan accepts exactly the strings `^[^\s@]+@[^\s@]+\.[^\s@]+$` matches. |
| Register.NombreAccepted | src/pages/Register.jsx:131-162 | nombre and apellido are accepted exactly when they have at least 3 characters, all letters A-Z, a-z, ÁÉÍÓÚáéíóú, ñ, Ñ or white space. |
| Register.TelefonoAccepted | src/pages/Register.jsx:173-187 | telefono is accepted exactly when it has 7 to 10 characters, all digits. |
| Register.EmailAccepted | src/pages/Register.jsx:198-204 | email is accepted exactly when the regular expression matches. |
| Register.PasswordAccepted | src/pages/Register.jsx:215-221 | password is accepted exactly from 6 UTF-16 code units on, so three emoji outside the Basic Multilingual Plane are enough. |
| Register.ImageEntries | src/pages/Register.jsx:88-94 | At most one image part: the first file as "imagen", else a truthy generated image as "imagenIA", else none. |
| Register.BuildFormData | src/pages/Register.jsx:80-94 | The body is the five text fields in order, followed by the image part. |
| Register.NeverBothImages | src/pages/Register.jsx:88-94 | Never both image keys. "imagen" is present exactly when a file was chosen, and "imagenIA" exactly when none was and an image was generated. |
| Register.Form.constructor | src/pages/Register.jsx:21-22 | No preview, not generating. |
| Register.Form.FilesChanged | src/pages/Register.jsx:29-44 | A non-image sets the error and shows no new preview. An image clears the error, becomes the preview and clears the prompt. No file changes nothing. |
| Register.AiRefusal | src/pages/Register.jsx:47-52 | No refusal exactly when the helper may be called. A missing or blank prompt is refused first, with its message. Only then is a chosen file refused, with its own message. |
| Register.Form.GenerarImagenIA | src/pages/Register.jsx:46-71 | The helper is asked, with the trimmed prompt, exactly when the prompt is not blank and no file is chosen. A refusal shows AiRefusal's message and changes nothing else. Only a blob of an image type sets the preview and `imagenIA`; every other answer leaves both and shows an error. `generando` ends false. |
| Register.Form.ApplyResult | src/pages/Register.jsx:55-67 | A blob of an image type becomes the preview and `imagenIA`, with the success toast. A missing blob or a non-image type shows "La IA no devolvió una imagen válida…". A throw shows "No se pudo generar la imagen…". In both error cases preview and `imagenIA` are kept. |
| CambiarPasswordAdmin.PasswordsAccepted | src/pages/admin/CambiarPassword.jsx:93-123 | The old and the new password are accepted exactly from 6 UTF-16 code units on. |
| CambiarPasswordAdmin.ConfirmarAccepted | src/pages/admin/CambiarPassword.jsx:147-151 | The confirmation is accepted exactly when it is non-empty and equals the new password. A different one gets "Las contraseñas no coinciden". |
| CambiarPasswordAdmin.AdminIdOf | src/pages/admin/CambiarPassword.jsx:34 | `_id` when truthy, else `id`. |
| CambiarPasswordAdmin.Page.constructor | src/pages/admin/CambiarPassword.jsx:9-10 | No admin id, loading, and an empty form. |
| CambiarPasswordAdmin.Page.ProfileLoaded | src/pages/admin/CambiarPassword.jsx:26-47 | The id from the profile, with an error when it is missing, or an error on failure. Loading ends either way. |
| CambiarPasswordAdmin.Page.Submit | src/pages/admin/CambiarPassword.jsx:49-70 | Sent exactly when the form is valid and an admin id is known. The body is only the old and new passwords. An invalid form changes nothing, the toast included. A missing id shows its error. A success resets the form and shows the reply. A failed request keeps the form and shows the server's `msg` or "Error al actualizar contraseña". |
| CambiarPasswordAdmin.MismatchGuardUnreachable | src/pages/admin/CambiarPassword.jsx:53-55 | Once the confirmation rule holds, the new password equals the confirmation, so the mismatch guard cannot fire. |
| CambiarPasswordPaciente.PasswordsAccepted | src/pages/paciente/CambiarPasswordPaciente.jsx:91-108 | The old password only needs to be non-empty. The new one is accepted exactly from 6 UTF-16 code units on. |
| CambiarPasswordPaciente.PacienteIdOf | src/pages/paciente/CambiarPasswordPaciente.jsx:40 | `id` when truthy, else `_id`. |
| CambiarPasswordPaciente.Page.constructor | src/pages/paciente/CambiarPasswordPaciente.jsx:9-11 | No patient id, loading. |
| CambiarPasswordPaciente.Page.LoadProfile | src/pages/paciente/CambiarPasswordPaciente.jsx:26-49 | Without a token it requests nothing and shows an error. Otherwise it takes the id from the profile or shows an error. Loading ends on every path. |
| CambiarPasswordPaciente.Page.Submit | src/pages/paciente/CambiarPasswordPaciente.jsx:52-73 | Sent exactly when the form is valid, a token and a patient id exist, and the new password differs from the old one. An invalid form changes nothing, the toast included. Each refusal shows its own error, in the source's order. A success resets the form. A failed request keeps it and shows the server's `msg` or "No se pudo actualizar la contraseña". |
| CambiarPasswordPaciente.WarningMatchesGuard | src/pages/paciente/CambiarPasswordPaciente.jsx:114-118 | For a valid form, the same-password warning shows exactly when `onSubmit` would refuse the passwords as equal. |
| Treatments.Toggle | src/store/storeTreatments.jsx:7 | null when modal === t, else t. |
| Treatments.Negate | src/store/storeTreatments.jsx:20 | Always a boolean: the negation of the value's truthiness. |
| Treatments.ToggleTwiceFromInitial | src/store/storeTreatments.jsx:6-7 | Toggling the same type twice from the initial false ends at null, not false. |
| Treatments.ToggleTwice | src/store/storeTreatments.jsx:7 | Toggling t twice restores t. From another open type it ends at null. |
| Treatments.SessionToken | src/store/storeTreatments.jsx:11-16 | The read fails unless the key holds a persisted session. When it holds one, the token is that session's. |
| Treatments.SessionWriteInvisible | src/store/storeTreatments.jsx:11 | The session store's write under "auth-storage" does not change what is read under "auth-token". |
| Treatments.SessionWriteVisibleUnderItsKey | src/store/storeAuth.jsx:15 | Reading "auth-storage" after the session store's write gives the token written. |
| Treatments.AsWrittenNeverReadsSession | src/store/storeTreatments.jsx:11 | With nothing under "auth-token", a logged-in session still yields no token. |
| Treatments.Store.constructor | src/store/storeTreatments.jsx:6 | `modal` starts false. |
| Treatments.Store.ToggleModal | src/store/storeTreatments.jsx:7 | `modal` becomes Toggle(modal, t). |
| Treatments.Store.Post | src/store/storeTreatments.jsx:9-26 | Sends the token read under the key. Success negates `modal` and shows the reply. A failed read or request leaves `modal` unchanged and shows the action's error. |
| Treatments.Store.RegisterTreatments | src/store/storeTreatments.jsx:9-26 | As written: the token is read under "auth-token". Success negates `modal` and shows the reply's message. A failed read or request leaves `modal` and shows "Error al registrar el tratamiento psicológico.". |
| Treatments.Store.PayTreatments | src/store/storeTreatments.jsx:49-66 | As written: reads "auth-token". Success negates `modal` and shows the reply's message. Failure leaves `modal` and shows "Error al procesar el pago del tratamiento.". |
| Treatments.Store.Delete | src/store/storeTreatments.jsx:28-47 | A declined confirm does nothing. Otherwise success or failure only sets the toast. `modal` is never changed. |
| Treatments.Store.DeleteTreatments | src/store/storeTreatments.jsx:28-47 | As written: reads "auth-token", and only when confirmed. A declined confirm leaves the toast. Success shows the reply's message; failure shows "Error al eliminar el tratamiento.". |
| Treatments.Store.RegisterTreatmentsWithSessionKey | src/store/storeTreatments.jsx:9-26 | Corrected: reads "auth-storage". The `modal` and toast outcomes are those of `RegisterTreatments`. |
| Treatments.Store.PayTreatmentsWithSessionKey | src/store/storeTreatments.jsx:49-66 | Corrected: reads "auth-storage". The `modal` and toast outcomes are those of `PayTreatments`. |
| Treatments.Store.DeleteTreatmentsWithSessionKey | src/store/storeTreatments.jsx:28-47 | Corrected: reads "auth-storage". The toast outcomes are those of `DeleteTreatments`. |
| Treatments.LoggedInRegistrationNeverSent | src/store/storeTreatments.jsx:9-25 | After a login through the session store, registration as written sends nothing, leaves `modal` false and shows "Error al registrar el tratamiento psicológico.". |
| Treatments.LoggedInRegistrationWithSessionKey | src/store/storeTreatments.jsx:9-25 | With the corrected key, the logged-in token is sent. A success opens `modal` and shows the reply's message; a failure leaves `modal` false and shows the registration's error toast. |
| Sidebar.ToggleMenu | src/layout/AdminLayout.jsx:18-20 | Clicking the open menu closes it. Any other click opens the clicked one. |
| Sidebar.OpenSubmenus | src/layout/AdminLayout.jsx:53-113 | A submenu shows its links exactly when `openMenu` equals its name, so at most one shows. |
| Sidebar.ToggleTwice | src/layout/AdminLayout.jsx:18-20 | Two clicks on a menu restore a closed sidebar or that menu open. From another open menu they leave all closed. |
| Sidebar.ClickShowsOnlyClicked | src/layout/AdminLayout.jsx:18-20 | After a click, either nothing shows or only the clicked menu does. |
| Sidebar.Layout.constructor | src/layout/AdminLayout.jsx:6-7 | usuario starts as {nombre:"", rol:""} and openMenu as null. |
| Sidebar.Layout.Mount | src/layout/AdminLayout.jsx:9-16 | A missing or empty stored "usuario" navigates to the layout's redirect. A stored user becomes `usuario`. |
| Sidebar.Layout.Toggle | src/layout/AdminLayout.jsx:18-20 | `openMenu` becomes ToggleMenu(openMenu, m). |
| Sidebar.Layout.Logout | src/layout/AdminLayout.jsx:32-37 | Removes exactly "usuario", "token" and "rol" and navigates to "/login". |
| AdminLayout.Open | src/layout/AdminLayout.jsx:6-7 | The admin layout redirects to "/login" and starts empty. |
| AdminLayout.LogoutThenRemount | src/layout/AdminLayout.jsx:9-37 | After a logout, mounting again navigates to "/login". |
| PacienteLayout.Open | src/layouts/PacienteLayout.jsx:7-8 | The patient layout redirects to "/login" and starts empty. |
| PacienteLayout.LogoutThenRemount | src/layouts/PacienteLayout.jsx:10-38 | After a logout, mounting again navigates to "/login". |
| DashboardAdmin.Open | src/pages/DashboardAdmin.jsx:6-7 | The dashboard redirects to "/" and starts empty. |
| DashboardAdmin.MountWithoutUser | src/pages/DashboardAdmin.jsx:9-16 | Without a stored user the dashboard goes to "/" while the admin layout goes to "/login". |
| ChatPaciente.PropiosIgnoresAdmin | src/pages/ChatPaciente.jsx:9-11 | An admin message adds nothing to the patient's own messages. |
| ChatPaciente.PropiosAddsOwn | src/pages/ChatPaciente.jsx:16-21 | A "yo" message adds its text at the end of the patient's own messages. |
| ChatPaciente.Page.constructor | src/pages/ChatPaciente.jsx:5-6 | Empty input, no messages, nothing emitted. |
| ChatPaciente.Page.Type | src/pages/ChatPaciente.jsx:44 | The input takes the typed text. |
| ChatPaciente.Page.Receive | src/pages/ChatPaciente.jsx:9-11 | Appends {texto: msg, remitente: "admin"}. Earlier messages are unchanged and the invariant is kept. |
| ChatPaciente.Page.Enviar | src/pages/ChatPaciente.jsx:16-22 | A blank input changes nothing. Otherwise the text is emitted, appended as "yo" and the input cleared. The invariant holds throughout: what was emitted is exactly the texts of the "yo" messages, none blank. |
| Chat.Page.constructor | src/pages/Chat.jsx:8-10 | Empty input, no messages, no socket. |
| Chat.Page.Connect | src/pages/Chat.jsx:13-14 | The socket is set. |
| Chat.Page.Type | src/pages/Chat.jsx:61 | The input takes the typed text. |
| Chat.Page.Receive | src/pages/Chat.jsx:20-22 | Appends the data at the end. Earlier messages are unchanged. |
| Chat.Page.Enviar | src/pages/Chat.jsx:34-42 | A blank input or no socket emits nothing and keeps the input. Otherwise it emits {body: mensaje} and clears the input. Own messages are never appended. Every emitted body is non-blank. |

## Left out

- HTTP requests (axios and `fetch`): each is an outcome parameter (a success body or a failure, with the server's `msg` where the code reads it). URLs, headers and the Authorization header's text are not modelled.
- Socket transport (src/services/socket.js, `socket.on`/`emit`/`off`, connection events): emits are recorded in an `emitted` field, and incoming events are method calls.
- Timers: the 100 ms delay of src/context/storeAuth.jsx is the `TimerFires` transition. The search debounce of AdminReportes and the redirect delay after sign-up are not modelled.
- `toLocaleString`: a report date is taken as already rendered text. `toLowerCase` is ASCII only. There is no Unicode case mapping.
- `JSON.parse`/`JSON.stringify`: a stored value is `Raw` text, a user object or a persisted session. Parsing anything but the expected kind counts as a throw.
- `decodeURIComponent` and `URLSearchParams`: RedesSociales receives the query parameters and the parsed user as inputs.
- `FileReader`, `URL.createObjectURL`, the AI avatar helper and `convertBlobToBase64`: inputs (`objectUrl`, `AiResult`). `jwtDecode` is not used by the modelled code.
- The zustand `persist` middleware's asynchronous hydration and its write on hydration: the store is created from storage synchronously.
- React's batching and re-rendering: each handler is one atomic method.
- react-hook-form's `handleSubmit` running validation is the `FormValid` precondition check. `reset()` is modelled as emptying the fields.
- The aliasing in the list handlers of RecursosCrear.jsx: `copy[idx][field] = value` mutates question objects shared with the previous state. Each handler is modelled as a new list, because that form's state is never read again through the old list.
- The aliasing in EditarRecursosModal.jsx: its `cuestionario` starts as the parent's own `recurso.referencia.preguntas` array (lines 26-30). The handlers at lines 46, 52 and 58 therefore mutate question objects held in RecursosAdmin's `recursos`. If the admin closes the modal without saving and opens the same resource again, the unsaved edits reappear. `EditarRecurso.Modal` copies the questions and does not capture this.
- Toasts: a page's `toast` field holds the last toast shown. An earlier toast of the same handler is not recorded, such as the success toast Login.jsx shows before a body without `usuario` throws.
- A sparse write by `handleChangeOpcion` past the end of an option list cannot happen from the rendered inputs. Those methods require a rendered index.
- RecursosCrear.jsx: the `enviando` flag, the post-request toast and the navigation to the list; `opciones` is always a list in that form.
- The `onChange` setters of the plain text inputs: titles, descriptions, the filters, the contenido fields.
- PacientesListar.jsx: the submit of `EditarPacienteModal` and its field rules; `setLoading(true)` and the `if (token)` guard before fetching; the refetch after a deactivation. The refetch is just another `Loaded`.
- AdminReportes.jsx: `handleEliminar` (a confirm, a request and a refetch, with no local state of its own).
- UtilizarRecurso.jsx: the toasts after `marcarVisto` and `enviarCuestionario`.
- Register.jsx: the toast and navigation after registration; clearing the file error when the form is submitted.
- CambiarPassword.jsx: without a token the profile is never requested and `cargando` stays true. `ProfileLoaded` models only the request's outcome.
- Login.jsx, RedesSociales.jsx and OAuthSuccess.jsx call `setToken`, `setNombre`, `setUsuario` and `setRol`, which src/store/storeAuth.jsx does not define. Each page's own logic is modelled over a setter sink (`SessionSetters.Sink`), not reconciled with the store.
- Static or display-only pages (Informacion, Main, Contacto, Confirm, Navbar, the App route table, Details, Cita with its Stripe flow, RecursosUsar, RecursosUtilizados, CitasAdmin, PerfilAdmin, PerfilPaciente) and commented-out code.

Where the code and its description differ, the code is followed:

- src/routes/RutaProtegida.jsx denies every route that passes no `rol`.
- Login.jsx does not navigate for roles other than "admin" and "paciente".

## Findings

| source | as written | input that shows it | evidently intended | confidence | as-written member | corrected member |
|---|---|---|---|---|---|---|
| src/store/storeTreatments.jsx:11 | The session is read from localStorage key "auth-token" (also lines 32 and 51). No file ever writes that key: the session store persists under "auth-storage" (src/store/storeAuth.jsx:15). So `storedUser` is null and `storedUser.state.token` throws. | Log in through the session store, then call `registerTreatments`: no request is sent, `modal` stays false and the error toast shows. | Read the session store's key "auth-storage", so that the logged-in token is sent. | not executed | Treatments.LoggedInRegistrationNeverSent | Treatments.LoggedInRegistrationWithSessionKey |
