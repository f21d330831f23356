/** The question for a missing diagnostic field: a personalised question
    from the client, with a fixed question per field as the fallback. */
module MissingInfo {

  import opened Values
  import opened JsString
  import opened SessionModel
  import opened GeminiWrapper
  import opened ResponseService

  /** `prompts[campo]`: the fixed question for each of the four fields, and
      undefined (`None`) for any other name. */
  function StaticPrompt(campo: string, session: Session): (r: Option<string>)
    reads session
    ensures r.Some? <==> campo in {"EDAD", "NOMBRE", "LIBRO_ACTUAL", "PROGRESO_LIBRO"}
    ensures r.Some? ==> r.value != ""
  {
    match campo
    case "EDAD" => Some("¡Hola! Para recomendarte libros geniales, dime ¿cuántos años tienes?")
    case "NOMBRE" => Some("¡Qué gusto leer contigo! ¿Cómo te llamas?")
    case "LIBRO_ACTUAL" => Some("¿Qué libro estás leyendo ahora? Puedes decirme el título o contarme de qué trata.")
    case "PROGRESO_LIBRO" =>
      Some("¿Por qué parte vas en \"" + ShowStr(session.libroActual)
           + "\"? (Ejemplo: \"voy por el capítulo donde...\")")
    case _ => None
  }

  /** The request for a personalised question: the age (or 'X'), the last
      three message contents joined by " | ", and the field name. */
  function MissingInfoPrompt(campo: string, user: User, mensajes: seq<Message>): string {
    CONTEXT_HEAD + NumOr(user.edad, "X") + CONTEXT_RECENT + Join(RecentContents(mensajes), " | ")
    + CONTEXT_NEED + campo + CONTEXT_TAIL
  }

  const CONTEXT_HEAD: string := "Contexto: Niño de "
  const CONTEXT_RECENT: string := " años. Conversación reciente: "
  const CONTEXT_NEED: string := ". Necesito preguntar: "
  const CONTEXT_TAIL: string := ". Genera una pregunta amigable y natural."

  /** Messages older than the last three do not reach the request. */
  lemma PromptIgnoresOlder(campo: string, user: User, older: seq<Message>, mensajes: seq<Message>)
    requires |mensajes| >= 3
    ensures MissingInfoPrompt(campo, user, older + mensajes) == MissingInfoPrompt(campo, user, mensajes)
  {
    RecentContentsIgnoresOlder(older, mensajes);
  }

  /** `a || b` for a string `a` and a possibly undefined `b`. */
  function OrElse(a: string, b: Option<string>): (r: Option<string>)
    ensures a != "" ==> r == Some(a)
    ensures a == "" ==> r == b
  {
    if a != "" then Some(a) else b
  }

  /** `askForMissingInfo({campo, user, session, mensajes})`: the wrapped
      reply to the request, or the fixed question when that reply is empty,
      passed through formatResponse. Since the wrapper never returns an
      empty text, the result is always the reply or the wrapper's fallback,
      and the fixed questions are never used. */
  function AskForMissingInfo(campo: string, user: User, session: Session, mensajes: seq<Message>, client: Client)
    : (r: Option<string>)
    reads session
    ensures r == Some(Ask(client, MissingInfoPrompt(campo, user, mensajes)))
    ensures r.value == DEFAULT_FALLBACK || client(MissingInfoPrompt(campo, user, mensajes)) == Answer(r.value)
  {
    var personalised := Ask(client, MissingInfoPrompt(campo, user, mensajes));
    FormatResponse(user, OrElse(personalised, StaticPrompt(campo, session)), FormatOptions(Some(true), None))
  }
}
