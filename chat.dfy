/** The patient's chat of src/pages/ChatPaciente.jsx: the admin's messages
    arrive from the socket, the patient's own non-blank messages are emitted
    and shown at once. */
module ChatPaciente {
  import opened JsText

  datatype Mensaje = Mensaje(texto: string, remitente: string)

  /** The texts of the patient's own ("yo") messages, in order. */
  function Propios(mensajes: seq<Mensaje>): (r: seq<string>)
    ensures |r| <= |mensajes|
  {
    if mensajes == [] then []
    else Propios(mensajes[..|mensajes| - 1])
         + (if mensajes[|mensajes| - 1].remitente == "yo" then [mensajes[|mensajes| - 1].texto] else [])
  }

  /** A message from the admin adds nothing to the patient's own messages. */
  lemma PropiosIgnoresAdmin(mensajes: seq<Mensaje>, msg: string)
    ensures Propios(mensajes + [Mensaje(msg, "admin")]) == Propios(mensajes)
  {
    assert (mensajes + [Mensaje(msg, "admin")])[..|mensajes|] == mensajes;
  }

  /** A message of the patient's adds its text at the end. */
  lemma PropiosAddsOwn(mensajes: seq<Mensaje>, texto: string)
    ensures Propios(mensajes + [Mensaje(texto, "yo")]) == Propios(mensajes) + [texto]
  {
    assert (mensajes + [Mensaje(texto, "yo")])[..|mensajes|] == mensajes;
  }

  class Page {
    /** The input box. */
    var mensaje: string
    var mensajes: seq<Mensaje>
    /** What `socket.emit` has sent, in order. */
    var emitted: seq<string>

    /** What was emitted is exactly the patient's messages shown, and none is blank. */
    ghost predicate Valid()
      reads this
    {
      && emitted == Propios(mensajes)
      && forall i :: 0 <= i < |emitted| ==> !IsBlank(emitted[i])
    }

    constructor ()
      ensures mensaje == "" && mensajes == [] && emitted == []
      ensures Valid()
    {
      mensaje, mensajes, emitted := "", [], [];
    }

    /** `onChange` of the input. */
    method Type(text: string)
      modifies this`mensaje
      ensures mensaje == text
    {
      mensaje := text;
    }

    /** The "enviar-mensaje-front-back" listener. */
    method Receive(msg: string)
      requires Valid()
      modifies this`mensajes
      ensures mensajes == old(mensajes) + [Mensaje(msg, "admin")]
      ensures Valid()
    {
      PropiosIgnoresAdmin(mensajes, msg);
      mensajes := mensajes + [Mensaje(msg, "admin")];
    }

    /** `enviarMensaje`: a blank input does nothing; otherwise it is emitted,
        shown as the patient's and the input is cleared. */
    method Enviar()
      requires Valid()
      modifies this`mensaje, this`mensajes, this`emitted
      ensures IsBlank(old(mensaje)) ==>
                mensaje == old(mensaje) && mensajes == old(mensajes) && emitted == old(emitted)
      ensures !IsBlank(old(mensaje)) ==>
                && emitted == old(emitted) + [old(mensaje)]
                && mensajes == old(mensajes) + [Mensaje(old(mensaje), "yo")]
                && mensaje == ""
      ensures Valid()
    {
      if !IsBlank(mensaje) {
        PropiosAddsOwn(mensajes, mensaje);
        emitted := emitted + [mensaje];
        mensajes := mensajes + [Mensaje(mensaje, "yo")];
        mensaje := "";
      }
    }
  }
}

/** The chat of src/pages/Chat.jsx: incoming data is appended, the user's
    own messages are only emitted, as `{ body }`, never shown locally. */
module Chat {
  import opened JsText

  /** What the server sends: rendered as `m.from` and `m.body`. */
  datatype Data = Data(from: Option<string>, body: Option<string>)

  /** The payload `enviarMensaje` emits. */
  datatype Payload = Payload(body: string)

  class Page {
    var mensaje: string
    var mensajes: seq<Data>
    /** Whether the socket of the mount effect is set. */
    var connected: bool
    var emitted: seq<Payload>

    /** Every emitted body was non-blank. */
    predicate Valid()
      reads this
    {
      forall i :: 0 <= i < |emitted| ==> !IsBlank(emitted[i].body)
    }

    constructor ()
      ensures mensaje == "" && mensajes == [] && !connected && emitted == []
      ensures Valid()
    {
      mensaje, mensajes, connected, emitted := "", [], false, [];
    }

    /** The mount effect's `setSocket(newSocket)`. */
    method Connect()
      modifies this`connected
      ensures connected
    {
      connected := true;
    }

    method Type(text: string)
      modifies this`mensaje
      ensures mensaje == text
    {
      mensaje := text;
    }

    /** The "enviar-mensaje-front-back" listener: the data goes at the end. */
    method Receive(data: Data)
      modifies this`mensajes
      ensures mensajes == old(mensajes) + [data]
      ensures mensajes[..|old(mensajes)|] == old(mensajes)
    {
      mensajes := mensajes + [data];
    }

    /** `enviarMensaje`: nothing without a non-blank input and a socket;
        otherwise emit `{ body: mensaje }` and clear the input. The list of
        messages is never touched. */
    method Enviar()
      requires Valid()
      modifies this`mensaje, this`emitted
      ensures IsBlank(old(mensaje)) || !connected ==> mensaje == old(mensaje) && emitted == old(emitted)
      ensures !IsBlank(old(mensaje)) && connected ==>
                emitted == old(emitted) + [Payload(old(mensaje))] && mensaje == ""
      ensures Valid()
    {
      if IsBlank(mensaje) || !connected {
        return;
      }
      emitted := emitted + [Payload(mensaje)];
      mensaje := "";
    }
  }
}
