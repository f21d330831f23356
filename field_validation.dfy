/** The book-title check: the client is asked whether the child's message
    names a known children's book, and the reply is turned into "NO" or
    "SI:" followed by the title. */
module FieldValidation {

  import opened Values
  import opened JsString
  import opened SessionModel
  import opened GeminiWrapper

  /** The question sent to the client about the message. */
  function ValidationPrompt(mensaje: string): string {
    VALIDATION_HEAD + mensaje + VALIDATION_TAIL
  }

  const VALIDATION_HEAD: string := "Analiza: \""
  const VALIDATION_TAIL: string :=
    "\". ¿Contiene claramente el título de un libro infantil conocido? \n"
    + "      Responde SOLO con el título exacto entre comillas o \"NO\"."

  /** `validateField({campo, mensaje, user, session})`. Only the field
      "LIBRO_ACTUAL" is validated; any other field gives undefined (`None`).
      For it, the wrapped reply is judged by whether it holds a double
      quote: with one, "SI:" followed by the reply with every double quote
      removed; without, "NO". The user and the session are not consulted. */
  function ValidateField(campo: string, mensaje: string, user: User, session: Session, client: Client)
    : (r: Option<string>)
    ensures campo != "LIBRO_ACTUAL" ==> r == None
    ensures campo == "LIBRO_ACTUAL" ==> r.Some? && (r.value == "NO" || StartsWith(r.value, "SI:"))
    ensures campo == "LIBRO_ACTUAL" ==>
              (StartsWith(r.value, "SI:") <==> '"' in Ask(client, ValidationPrompt(mensaje)))
    ensures campo == "LIBRO_ACTUAL" && StartsWith(r.value, "SI:") ==>
              && r.value == "SI:" + RemoveAll(Ask(client, ValidationPrompt(mensaje)), '"')
              && '"' !in r.value
  {
    if campo == "LIBRO_ACTUAL" then
      var respuesta := Ask(client, ValidationPrompt(mensaje));
      ContainsChar(respuesta, '"');
      if Contains(respuesta, "\"") then
        var r := "SI:" + RemoveAll(respuesta, '"');
        assert r[..3] == "SI:";
        Some(r)
      else
        assert !StartsWith("NO", "SI:") by { assert "NO"[0] != "SI:"[0]; }
        Some("NO")
    else None
  }

  /** When the client call fails or replies with nothing, the fallback text
      holds no double quote, so the answer is "NO". */
  lemma FailedCallMeansNo(mensaje: string, user: User, session: Session, client: Client)
    requires client(ValidationPrompt(mensaje)) == Threw || client(ValidationPrompt(mensaje)) == Answer("")
    ensures ValidateField("LIBRO_ACTUAL", mensaje, user, session, client) == Some("NO")
  {
    assert Ask(client, ValidationPrompt(mensaje)) == DEFAULT_FALLBACK;
    FallbackText();
  }
}
