/** The sign-up page of src/pages/Register.jsx: its field rules, the
    profile image chosen from a file or generated by the AI helper, and the
    multipart body it posts. */
module Register {
  import opened JsText
  import opened Ui
  import opened FormRules

  /** A character of `[A-Za-zÁÉÍÓÚáéíóúñÑ\s]`. */
  predicate NameChar(c: char)
  {
    || ('A' <= c <= 'Z') || ('a' <= c <= 'z')
    || c == 'Á' || c == 'É' || c == 'Í' || c == 'Ó' || c == 'Ú'
    || c == 'á' || c == 'é' || c == 'í' || c == 'ó' || c == 'ú'
    || c == 'ñ' || c == 'Ñ'
    || IsSpace(c)
  }

  /** `/^[A-Za-zÁÉÍÓÚáéíóúñÑ\s]+$/`. */
  predicate NamePattern(s: string)
  {
    s != [] && forall i :: 0 <= i < |s| ==> NameChar(s[i])
  }

  /** `/^[0-9]+$/`. */
  predicate DigitsPattern(s: string)
  {
    s != [] && forall i :: 0 <= i < |s| ==> '0' <= s[i] <= '9'
  }

  /** A character of `[^\s@]`. */
  predicate PlainChar(c: char)
  {
    !IsSpace(c) && c != '@'
  }

  /** The e-mail test as a scan: the first "@" is not at the start, no other
      character is white space or "@", and a "." follows the "@" with at
      least one character on each side. */
  predicate EmailPattern(s: string)
  {
    match IndexOf(s, "@")
    case None => false
    case Some(at) =>
      && at > 0
      && (forall k :: 0 <= k < |s| && k != at ==> PlainChar(s[k]))
      && (exists d :: at + 1 < d < |s| - 1 && s[d] == '.')
  }

  /** `/^[^\s@]+@[^\s@]+\.[^\s@]+$/` read as a regular expression: the value
      splits as local part, "@", domain text, ".", final text, each of the
      three texts non-empty and made of `[^\s@]`. */
  ghost predicate EmailRegex(s: string)
  {
    exists at, d :: EmailSplit(s, at, d)
  }

  ghost predicate EmailSplit(s: string, at: int, d: int)
  {
    && 0 < at && at + 1 < d < |s| - 1
    && s[at] == '@' && s[d] == '.'
    && (forall k :: 0 <= k < at ==> PlainChar(s[k]))
    && (forall k :: at < k < d ==> PlainChar(s[k]))
    && (forall k :: d < k < |s| ==> PlainChar(s[k]))
  }

  lemma OccursAtSingle(s: string, c: char, j: int)
    ensures OccursAt(s, [c], j) <==> 0 <= j < |s| && s[j] == c
  {
    if 0 <= j < |s| && s[j] == c {
      assert s[j..j + 1] == [c];
    }
  }

  /** The scan accepts exactly what the regular expression matches. */
  lemma EmailPatternIsRegex(s: string)
    ensures EmailPattern(s) <==> EmailRegex(s)
  {
    if EmailPattern(s) {
      var at := IndexOf(s, "@").value;
      OccursAtSingle(s, '@', at);
      var d :| at + 1 < d < |s| - 1 && s[d] == '.';
      assert EmailSplit(s, at, d);
    }
    if EmailRegex(s) {
      var at, d :| EmailSplit(s, at, d);
      forall j | 0 <= j < at
        ensures !OccursAt(s, "@", j)
      {
        OccursAtSingle(s, '@', j);
      }
      OccursAtSingle(s, '@', at);
      assert IndexOf(s, "@").Some? by {
        assert OccursAt(s, "@", at);
      }
      var first := IndexOf(s, "@").value;
      assert first == at by {
        OccursAtSingle(s, '@', first);
      }
      assert forall k :: 0 <= k < |s| && k != at ==> PlainChar(s[k]);
    }
  }

  const NombreRules: Rules :=
    Rules(Some("El nombre es obligatorio"), Some(LengthRule(3, "Mínimo 3 letras")), None,
          Some(PatternRule(NamePattern, "Solo letras permitidas")), None)

  const ApellidoRules: Rules :=
    Rules(Some("El apellido es obligatorio"), Some(LengthRule(3, "Mínimo 3 letras")), None,
          Some(PatternRule(NamePattern, "Solo letras permitidas")), None)

  const TelefonoRules: Rules :=
    Rules(Some("El número telefónico es obligatorio"), Some(LengthRule(7, "Debe tener al menos 7 dígitos")),
          Some(LengthRule(10, "Máximo 10 dígitos")), Some(PatternRule(DigitsPattern, "Solo números permitidos")), None)

  const EmailRules: Rules :=
    Rules(Some("El correo es obligatorio"), None, None, Some(PatternRule(EmailPattern, "Formato de correo inválido")), None)

  const PasswordRules: Rules :=
    Rules(Some("La contraseña es obligatoria"), Some(LengthRule(6, "Mínimo 6 caracteres")), None, None, None)

  /** A name or surname is accepted exactly when it has at least three
      characters, all letters of the Spanish alphabet or white space. */
  lemma NombreAccepted(s: string)
    ensures FieldError(s, NombreRules).None? <==> |s| >= 3 && forall i :: 0 <= i < |s| ==> NameChar(s[i])
    ensures FieldError(s, ApellidoRules).None? <==> |s| >= 3 && forall i :: 0 <= i < |s| ==> NameChar(s[i])
  {
  }

  /** A phone number is accepted exactly when it has 7 to 10 characters, all digits. */
  lemma TelefonoAccepted(s: string)
    ensures FieldError(s, TelefonoRules).None? <==> 7 <= |s| <= 10 && forall i :: 0 <= i < |s| ==> '0' <= s[i] <= '9'
  {
  }

  /** An e-mail is accepted exactly when the regular expression matches it. */
  lemma EmailAccepted(s: string)
    ensures FieldError(s, EmailRules).None? <==> EmailRegex(s)
  {
    EmailPatternIsRegex(s);
  }

  /** A password is accepted exactly when it has at least six UTF-16 code
      units; three emoji outside the Basic Multilingual Plane are enough. */
  lemma PasswordAccepted(s: string)
    ensures FieldError(s, PasswordRules).None? <==> Utf16Length(s) >= 6
    ensures FieldError("\U{1F600}\U{1F600}\U{1F600}", PasswordRules).None?
  {
    assert Utf16Length("\U{1F600}\U{1F600}\U{1F600}") == 6;
  }

  /** A chosen file: its name and MIME type. */
  datatype File = File(name: string, mimeType: string)

  /** `type.startsWith("image/")`. */
  predicate IsImageType(t: string)
  {
    |t| >= 6 && t[..6] == "image/"
  }

  /** A multipart field: text or a file. */
  datatype FormValue = Text(text: string) | FileValue(file: File)

  datatype Entry = Entry(key: string, value: FormValue)

  /** The image part of the body: the first chosen file as "imagen", else a
      generated image as "imagenIA", else nothing. */
  function ImageEntries(archivos: seq<File>, imagenIA: Option<string>): (r: seq<Entry>)
    ensures |r| <= 1
    ensures |archivos| > 0 ==> r == [Entry("imagen", FileValue(archivos[0]))]
    ensures |archivos| == 0 && Truthy(imagenIA) ==> r == [Entry("imagenIA", Text(imagenIA.value))]
    ensures |archivos| == 0 && !Truthy(imagenIA) ==> r == []
  {
    if |archivos| > 0 then [Entry("imagen", FileValue(archivos[0]))]
    else if Truthy(imagenIA) then [Entry("imagenIA", Text(imagenIA.value))]
    else []
  }

  /** `FormData`: appended entries, in order. */
  class FormData {
    var entries: seq<Entry>

    constructor ()
      ensures entries == []
    {
      entries := [];
    }

    method Append(key: string, value: FormValue)
      modifies this
      ensures entries == old(entries) + [Entry(key, value)]
    {
      entries := entries + [Entry(key, value)];
    }
  }

  /** The keys of a body. */
  function Keys(entries: seq<Entry>): (ks: seq<string>)
    ensures |ks| == |entries|
    ensures forall i :: 0 <= i < |ks| ==> ks[i] == entries[i].key
  {
    if entries == [] then [] else [entries[0].key] + Keys(entries[1..])
  }

  datatype Datos = Datos(nombre: string, apellido: string, telefono: string, email: string, password: string,
                         archivos: seq<File>, imagenIA: Option<string>)

  /** The body `registrarUsuario` posts: the five text fields in order, then
      the image part. */
  method BuildFormData(datos: Datos) returns (fd: FormData)
    ensures fresh(fd)
    ensures fd.entries == [Entry("nombre", Text(datos.nombre)), Entry("apellido", Text(datos.apellido)),
                           Entry("telefono", Text(datos.telefono)), Entry("email", Text(datos.email)),
                           Entry("password", Text(datos.password))]
                          + ImageEntries(datos.archivos, datos.imagenIA)
  {
    fd := new FormData();
    fd.Append("nombre", Text(datos.nombre));
    fd.Append("apellido", Text(datos.apellido));
    fd.Append("telefono", Text(datos.telefono));
    fd.Append("email", Text(datos.email));
    fd.Append("password", Text(datos.password));
    if |datos.archivos| > 0 {
      fd.Append("imagen", FileValue(datos.archivos[0]));
    } else if Truthy(datos.imagenIA) {
      fd.Append("imagenIA", Text(datos.imagenIA.value));
    }
  }

  /** The body never carries both image keys, and carries "imagen" exactly
      when a file was chosen. */
  lemma NeverBothImages(datos: Datos)
    ensures var ks := Keys(ImageEntries(datos.archivos, datos.imagenIA));
            && !("imagen" in ks && "imagenIA" in ks)
            && ("imagen" in ks <==> |datos.archivos| > 0)
            && ("imagenIA" in ks <==> |datos.archivos| == 0 && Truthy(datos.imagenIA))
  {
    var ks := Keys(ImageEntries(datos.archivos, datos.imagenIA));
    assert |ks| <= 1;
  }

  /** `generarImagenIA` may call the helper: a prompt that is not blank and no file chosen. */
  predicate AiAllowed(prompt: Option<string>, archivos: seq<File>)
  {
    !PromptBlank(prompt) && |archivos| == 0
  }

  /** Why `generarImagenIA` refuses to call the helper, checked in its
      order: a missing or blank prompt first, then a chosen file. */
  function AiRefusal(prompt: Option<string>, archivos: seq<File>): (r: Option<string>)
    ensures r.None? <==> AiAllowed(prompt, archivos)
    ensures PromptBlank(prompt) ==> r == Some("Debes escribir un prompt para generar la imagen.")
    ensures !PromptBlank(prompt) && |archivos| > 0 ==>
              r == Some("Ya has seleccionado una imagen. Quita el archivo si deseas usar IA.")
  {
    if PromptBlank(prompt) then Some("Debes escribir un prompt para generar la imagen.")
    else if |archivos| > 0 then Some("Ya has seleccionado una imagen. Quita el archivo si deseas usar IA.")
    else None
  }

  /** The prompt is missing or blank. */
  predicate PromptBlank(prompt: Option<string>)
  {
    !Truthy(prompt) || Trim(prompt.value) == ""
  }

  /** What the AI helper did: it (or the base64 conversion) threw, it
      returned no blob, or it returned a blob whose type may be missing,
      with its base64 text. */
  datatype AiResult = AiFailed | AiNoBlob | AiBlob(mimeType: Option<string>, base64: string)

  /** The helper returned a blob of an image type. */
  predicate IsImageBlob(result: AiResult)
  {
    result.AiBlob? && result.mimeType.Some? && IsImageType(result.mimeType.value)
  }

  class Form {
    var prompt: Option<string>
    var preview: Option<string>
    var archivoError: Option<string>
    var imagenIA: Option<string>
    var generando: bool
    var toast: Option<Toast>

    constructor ()
      ensures prompt == None && preview == None && archivoError == None && imagenIA == None
      ensures !generando && toast == None
    {
      prompt, preview, archivoError, imagenIA := None, None, None, None;
      generando, toast := false, None;
    }

    /** The effect on a change of the chosen files; `objectUrl` is what
        `URL.createObjectURL` gives for the first file. A non-image sets the
        error and shows no new preview; an image clears the error, becomes
        the preview and clears the prompt. */
    method FilesChanged(archivos: seq<File>, objectUrl: string)
      modifies this`archivoError, this`preview, this`prompt
      ensures archivos == [] ==> unchanged(this)
      ensures archivos != [] && !IsImageType(archivos[0].mimeType) ==>
                archivoError == Some("El archivo debe ser una imagen") &&
                preview == old(preview) && prompt == old(prompt)
      ensures archivos != [] && IsImageType(archivos[0].mimeType) ==>
                archivoError == None && preview == Some(objectUrl) && prompt == Some("")
    {
      if |archivos| > 0 {
        if !IsImageType(archivos[0].mimeType) {
          archivoError := Some("El archivo debe ser una imagen");
          return;
        }
        archivoError := None;
        preview := Some(objectUrl);
        prompt := Some("");
      }
    }

    /** `generarImagenIA`: `asked` is the trimmed prompt sent to the helper,
        None when the request is refused; `result` is what the helper gave. */
    method GenerarImagenIA(archivos: seq<File>, result: AiResult) returns (asked: Option<string>)
      modifies this`preview, this`imagenIA, this`generando, this`toast
      ensures asked == if AiAllowed(old(prompt), archivos) then Some(Trim(old(prompt).value)) else None
      ensures !AiAllowed(old(prompt), archivos) ==>
                preview == old(preview) && imagenIA == old(imagenIA) && generando == old(generando) &&
                toast == Some(ErrorToast(AiRefusal(old(prompt), archivos).value))
      ensures AiAllowed(old(prompt), archivos) ==> !generando
      ensures AiAllowed(old(prompt), archivos) && IsImageBlob(result) ==>
                preview == Some(result.base64) && imagenIA == Some(result.base64) &&
                toast == Some(SuccessToast("Imagen generada con éxito"))
      ensures AiAllowed(old(prompt), archivos) && !IsImageBlob(result) ==>
                preview == old(preview) && imagenIA == old(imagenIA) && toast.Some? && toast.value.ErrorToast?
    {
      var refusal := AiRefusal(prompt, archivos);
      if refusal.Some? {
        toast := Some(ErrorToast(refusal.value));
        return None;
      }
      generando := true;
      asked := Some(Trim(prompt.value));
      ApplyResult(result);
      generando := false;
    }

    /** The outcome of the helper's answer: only a blob of an image type
        becomes the preview and `imagenIA`; anything else is an error toast. */
    method ApplyResult(result: AiResult)
      modifies this`preview, this`imagenIA, this`toast
      ensures IsImageBlob(result) ==>
                preview == Some(result.base64) && imagenIA == Some(result.base64) &&
                toast == Some(SuccessToast("Imagen generada con éxito"))
      ensures result.AiFailed? ==>
                preview == old(preview) && imagenIA == old(imagenIA) &&
                toast == Some(ErrorToast("No se pudo generar la imagen. Intenta en 1 minuto."))
      ensures !result.AiFailed? && !IsImageBlob(result) ==>
                preview == old(preview) && imagenIA == old(imagenIA) &&
                toast == Some(ErrorToast("La IA no devolvió una imagen válida, intenta de nuevo."))
    {
      match result {
        case AiFailed =>
          toast := Some(ErrorToast("No se pudo generar la imagen. Intenta en 1 minuto."));
        case AiNoBlob =>
          toast := Some(ErrorToast("La IA no devolvió una imagen válida, intenta de nuevo."));
        case AiBlob(_, base64) =>
          if !IsImageBlob(result) {
            toast := Some(ErrorToast("La IA no devolvió una imagen válida, intenta de nuevo."));
          } else {
            preview := Some(base64);
            imagenIA := Some(base64);
            toast := Some(SuccessToast("Imagen generada con éxito"));
          }
      }
    }
  }
}
