/** The fallback wrapper around the text-generation client. The client is
    not modelled: what one call of it produced is a value of ClientReply. */
module GeminiWrapper {

  /** The outcome of one client call: a reply text (`Answer("")` stands for
      every falsy reply) or an exception. */
  datatype ClientReply = Answer(text: string) | Threw

  /** The client, as a function from the prompt to the outcome of the call. */
  type Client = string -> ClientReply

  const DEFAULT_FALLBACK: string := "¡Vaya! No puedo " + "responder ahora. " + "¿Quieres contarme más?"

  /** The text the client itself returns when its request fails for a
      reason other than a rejected prompt, the rate limit or the key: the
      client catches its errors, so a failed request is an `Answer` with
      this text, never `Threw`. */
  const CLIENT_ERROR: string := "Ocurrió un error " + "al consultar Gemini."

  /** `safeAsk(prompt, fallback)`, given what the client call produced: a
      non-empty reply is returned as it is; an empty reply or an exception
      gives the fallback. */
  function SafeAsk(reply: ClientReply, fallback: string): (r: string)
    ensures reply.Answer? && reply.text != "" ==> r == reply.text
    ensures reply == Answer("") ==> r == fallback
    ensures reply == Threw ==> r == fallback
    ensures fallback != "" ==> r != ""
  {
    match reply
    case Answer(text) => if text != "" then text else fallback
    case Threw => fallback
  }

  /** `await safeAsk(prompt)` with the default fallback: never empty. */
  function Ask(client: Client, prompt: string): (r: string)
    ensures r != ""
    ensures r == DEFAULT_FALLBACK || client(prompt) == Answer(r)
  {
    SafeAsk(client(prompt), DEFAULT_FALLBACK)
  }

  /** The default fallback text holds neither a double quote nor a capital
      O; it starts with '¡' and ends with '?'. */
  lemma FallbackText()
    ensures '"' !in DEFAULT_FALLBACK && 'O' !in DEFAULT_FALLBACK
    ensures DEFAULT_FALLBACK[0] == '¡' && DEFAULT_FALLBACK[|DEFAULT_FALLBACK| - 1] == '?'
  {
    assert '"' !in "¡Vaya! No puedo " && 'O' !in "¡Vaya! No puedo ";
    assert '"' !in "responder ahora. " && 'O' !in "responder ahora. ";
    assert '"' !in "¿Quieres contarme más?" && 'O' !in "¿Quieres contarme más?";
  }

  /** The client's error text holds no capital N; it starts with 'O' and
      ends with '.'. */
  lemma ClientErrorText()
    ensures 'N' !in CLIENT_ERROR
    ensures CLIENT_ERROR[0] == 'O' && CLIENT_ERROR[|CLIENT_ERROR| - 1] == '.'
  {
    assert 'N' !in "Ocurrió un error " && 'N' !in "al consultar Gemini.";
  }
}
