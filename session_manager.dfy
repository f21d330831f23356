/** The conversation orchestrator: one call handles one message of the
    child. It looks up the user and the session, records the message, runs
    the parameter analyser and dispatches on the stored stage to the
    greeting, diagnostic, exploration, activity or closing handler, each of
    which records one system message and may move the stage on. */
module SessionManager {

  import opened Values
  import opened JsString
  import opened SessionModel
  import opened GeminiWrapper
  import opened StateService
  import opened ActivityService

  // ---------------------------------------------------------------- texts

  /** The reply for a stage without a handler. */
  const UPS: string := "¡Ups! No entendí en qué parte de la conversación estamos. ¿Puedes intentarlo de nuevo?"

  /** The stages the dispatcher has a handler for. */
  const HANDLED_STAGES: set<string> := {"saludo", "diagnostico", "exploracion", "actividad", "cierre"}

  // The fixed pieces of the requests, kept as constants so that the
  // handlers can be verified without expanding the texts.

  const GREETING_HEAD: string := "Genera un saludo cálido y amigable para "
  const GREETING_AGE: string := " de "
  const GREETING_TAIL: string := " años."

  function GreetingPrompt(user: User): string {
    GREETING_HEAD + StrOr(user.nombre, "un niño") + GREETING_AGE + NumOr(user.edad, "X") + GREETING_TAIL
  }

  const BOOK_HEAD: string := "El usuario dijo: \""
  const BOOK_TAIL: string := "\". ¿Menciona algún libro? Responde SOLO con el título del libro o \"NO\"."

  function BookPrompt(message: string): string {
    BOOK_HEAD + message + BOOK_TAIL
  }

  const PROGRESS_HEAD: string := "El usuario está leyendo \""
  const PROGRESS_SAID: string := "\" y dijo: \""
  const PROGRESS_TAIL: string :=
    "\". \n      ¿Menciona su progreso? Responde SOLO con el porcentaje estimado (0-100) o \"NO\"."

  function ProgressPrompt(libro: Option<string>, message: string): string {
    PROGRESS_HEAD + ShowStr(libro) + PROGRESS_SAID + message + PROGRESS_TAIL
  }

  const AGE_QUESTION_HEAD: string := "Niño de edad desconocida. Conversación reciente: \""
  const AGE_QUESTION_TAIL: string := "\". Pregunta su edad de forma natural y amigable."
  const RECENT_HEAD: string := "Conversación reciente: \""
  const NAME_QUESTION_TAIL: string := "\". Pregunta su nombre de forma cálida."
  const BOOK_QUESTION_TAIL: string := "\". Pregunta qué libro está leyendo de forma natural."
  const READS_HEAD: string := "El usuario lee \""
  const READS_RECENT: string := "\". Conversación reciente: \""
  const PROGRESS_QUESTION_TAIL: string := "\". Pregunta por dónde va en el libro de forma natural."

  /** The request for the question about a missing field, given the recent
      conversation. */
  function QuestionPrompt(f: Field, libro: Option<string>, context: string): string {
    match f
    case Edad => AGE_QUESTION_HEAD + context + AGE_QUESTION_TAIL
    case Nombre => RECENT_HEAD + context + NAME_QUESTION_TAIL
    case LibroActual => RECENT_HEAD + context + BOOK_QUESTION_TAIL
    case ProgresoLibro => READS_HEAD + ShowStr(libro) + READS_RECENT + context + PROGRESS_QUESTION_TAIL
  }

  const TRANSITION_HEAD: string := "Genera un mensaje de transición a la conversación sobre \""
  const TRANSITION_OPEN: string := "\" ("
  const TRANSITION_CLOSE: string := "% leído). "

  function TransitionPrompt(libro: Option<string>, progreso: Option<int>, context: string): string {
    TRANSITION_HEAD + ShowStr(libro) + TRANSITION_OPEN + ShowNum(progreso) + TRANSITION_CLOSE + context
  }

  const EXPLORATION_PROMPT: string :=
    "El usuario está en la etapa de exploración. Dile algo como \"¡Genial! Explorar nuevos libros es divertido. ¿Tienes algún tema o género en mente?\""

  const ACTIVITY_PROMPT: string :=
    "El usuario está en la etapa de actividad. Sugiere una actividad divertida y educativa relacionada con la lectura."

  const SUMMARY_HEAD: string := "Genera un resumen breve (2-3 oraciones) de la sesión sobre \""
  const SUMMARY_WITH: string := "\" con "

  function SummaryPrompt(libro: Option<string>, nombre: Option<string>): string {
    SUMMARY_HEAD + ShowStr(libro) + SUMMARY_WITH + ShowStr(nombre) + "."
  }

  const CLOSING_HEAD: string := "Genera un mensaje de cierre cálido para "
  const CLOSING_SESSION: string := " sobre la sesión de \""

  function ClosingPrompt(nombre: Option<string>, libro: Option<string>): string {
    CLOSING_HEAD + ShowStr(nombre) + CLOSING_SESSION + ShowStr(libro) + "\"."
  }

  /** A message of the system, with the current parameters as its snapshot. */
  function SystemMessage(text: string, params: Params): Message {
    Message(text, "sistema", None, Some(params))
  }

  // ---------------------------------------------------------------- saving

  /** `saveMessage(session, contenido, emisor, emocion)`: appends one message
      whose emotion is the given one when truthy and the session's top-level
      EMOCION otherwise; nothing else changes. */
  method SaveMessage(session: Session, contenido: string, emisor: string, emocion: Option<string>)
    modifies session`mensajes
    ensures session.mensajes == old(session.mensajes) + [Message(contenido, emisor, OrStr(emocion, session.emocion), None)]
  {
    session.mensajes := session.mensajes + [Message(contenido, emisor, OrStr(emocion, session.emocion), None)];
  }

  // ---------------------------------------------------------------- stage graph

  /** The stage after one handled turn, where `missing` says whether a
      diagnostic field is still missing after the diagnostic turn. */
  function NextStage(stage: string, missing: bool): (r: string)
    ensures stage !in HANDLED_STAGES ==> r == stage
    ensures stage == "saludo" ==> r == "diagnostico"
    ensures stage == "diagnostico" ==> (r == "diagnostico" <==> missing) && (r == "conversacion" <==> !missing)
    ensures stage == "exploracion" ==> r == "actividad"
    ensures stage == "actividad" ==> r == "cierre"
    ensures stage == "cierre" ==> r == "cierre"
  {
    match stage
    case "saludo" => "diagnostico"
    case "diagnostico" => if missing then "diagnostico" else "conversacion"
    case "exploracion" => "actividad"
    case "actividad" => "cierre"
    case _ => stage
  }

  /** The stage after a sequence of turns. */
  function StageAfter(stage: string, missing: seq<bool>): string
    decreases |missing|
  {
    if missing == [] then stage else StageAfter(NextStage(stage, missing[0]), missing[1..])
  }

  /** From the greeting, no sequence of turns leaves the greeting, the
      diagnosis and the conversation: the exploration, activity and closing
      handlers are never reached. */
  lemma {:induction false} OnlyEarlyStagesReachable(stage: string, missing: seq<bool>)
    requires stage in {"saludo", "diagnostico", "conversacion"}
    ensures StageAfter(stage, missing) in {"saludo", "diagnostico", "conversacion"}
    decreases |missing|
  {
    if missing != [] {
      OnlyEarlyStagesReachable(NextStage(stage, missing[0]), missing[1..]);
    }
  }

  /** A turn keeps the stage inside the schema's enumeration: the greeting
      and the diagnosis lead only to enumerated stages, and the
      conversation and the closing stay where they are. */
  lemma NextStageKeepsSchema(stage: string, missing: bool)
    requires stage in SCHEMA_STAGES
    ensures NextStage(stage, missing) in SCHEMA_STAGES
  {
  }

  /** The conversation stage has no handler and is never left. */
  lemma {:induction false} ConversationIsFinal(missing: seq<bool>)
    ensures StageAfter("conversacion", missing) == "conversacion"
    decreases |missing|
  {
    if missing != [] {
      ConversationIsFinal(missing[1..]);
    }
  }

  /** The stage names disagree: the diagnostic handler moves to a stage the
      switch has no case for, and two of the handled stages lie outside the
      schema's enumeration. */
  lemma StageNamesDisagree()
    ensures NextStage("diagnostico", false) == "conversacion" && "conversacion" !in HANDLED_STAGES
    ensures "exploracion" !in SCHEMA_STAGES && "actividad" !in SCHEMA_STAGES
  {
  }

  // ---------------------------------------------------------------- diagnostic extraction

  /** The session fields the diagnostic handler fills in. */
  datatype Diagnostic = Diagnostic(libro: Option<string>, progreso: Option<int>, historial: seq<ProgressEntry>)

  function DiagnosticOf(session: Session): Diagnostic
    reads session`libroActual, session`progresoLibro, session`historialAvance
  {
    Diagnostic(session.libroActual, session.progresoLibro, session.historialAvance)
  }

  /** `parseInt(reply) || 0`: NaN and zero give 0. */
  function ProgressValue(reply: string): (v: int)
    ensures ParseInt(reply) == None ==> v == 0
    ensures ParseInt(reply).Some? ==> v == ParseInt(reply).value
  {
    var p := ParseInt(reply);
    if p.Some? && p.value != 0 then p.value else 0
  }

  /** A percentage written out as an integer is read back exactly. */
  lemma ProgressValueOfNumber(n: int)
    ensures ProgressValue(IntToString(n)) == n
  {
    ParseIntOfIntToString(n);
  }

  /** The book step: when no book is set and the message is not empty, the
      client is asked; a reply without "NO" becomes the book, trimmed. */
  function ExtractBook(libro: Option<string>, message: string, client: Client): (r: Option<string>)
    ensures TruthyStr(libro) || message == "" ==> r == libro
    ensures Contains(Ask(client, BookPrompt(message)), "NO") ==> r == libro
    ensures !TruthyStr(libro) && message != "" && !Contains(Ask(client, BookPrompt(message)), "NO") ==>
              r == Some(Trim(Ask(client, BookPrompt(message))))
  {
    if !TruthyStr(libro) && message != "" then
      var reply := Ask(client, BookPrompt(message));
      if !Contains(reply, "NO") then Some(Trim(reply)) else libro
    else libro
  }

  /** Both steps of the diagnostic extraction. The progress step runs when
      a book is set, no progress is set and the message is not empty; a
      reply without "NO" sets the progress to `parseInt(reply) || 0` and
      appends one entry to the progress history. */
  function Extract(d: Diagnostic, message: string, client: Client): (e: Diagnostic)
    ensures message == "" ==> e == d
    ensures TruthyStr(d.libro) ==> e.libro == d.libro
    ensures e.libro != d.libro ==> e.libro == Some(Trim(Ask(client, BookPrompt(message))))
    ensures TruthyNum(d.progreso) ==> e.progreso == d.progreso && e.historial == d.historial
    ensures e.historial == d.historial
            || (&& TruthyStr(e.libro) && e.progreso.Some?
                && e.historial == d.historial + [ProgressEntry(e.libro.value, 0, e.progreso.value)])
    ensures e.historial == d.historial ==> e.progreso == d.progreso
    ensures e.libro == ExtractBook(d.libro, message, client)
    ensures !(TruthyStr(e.libro) && !TruthyNum(d.progreso) && message != "") ==>
              e.progreso == d.progreso && e.historial == d.historial
    ensures var reply := Ask(client, ProgressPrompt(e.libro, message));
      TruthyStr(e.libro) && !TruthyNum(d.progreso) && message != "" ==>
        && (Contains(reply, "NO") ==> e.progreso == d.progreso && e.historial == d.historial)
        && (!Contains(reply, "NO") ==>
              && e.progreso == Some(ProgressValue(reply))
              && e.historial == d.historial + [ProgressEntry(e.libro.value, 0, ProgressValue(reply))])
        && (e.historial != d.historial <==> !Contains(reply, "NO"))
  {
    var libro := ExtractBook(d.libro, message, client);
    if TruthyStr(libro) && !TruthyNum(d.progreso) && message != "" then
      var reply := Ask(client, ProgressPrompt(libro, message));
      if !Contains(reply, "NO") then
        var p := ProgressValue(reply);
        Diagnostic(libro, Some(p), d.historial + [ProgressEntry(libro.value, 0, p)])
      else Diagnostic(libro, d.progreso, d.historial)
    else Diagnostic(libro, d.progreso, d.historial)
  }

  /** The wrapper's apology holds no "NO". */
  lemma ApologyHasNoRefusal()
    ensures !Contains(DEFAULT_FALLBACK, "NO")
  {
    FallbackText();
    assert "NO"[1] == 'O';
    NotContainsWithoutChar(DEFAULT_FALLBACK, "NO", 'O');
  }

  /** The wrapper's apology neither starts nor ends with white space. */
  lemma ApologyIsTrimmed()
    ensures TrimStart(DEFAULT_FALLBACK) == DEFAULT_FALLBACK
    ensures Trim(DEFAULT_FALLBACK) == DEFAULT_FALLBACK
  {
    FallbackText();
    LeadingSpacesUnique(DEFAULT_FALLBACK, 0);
    TrailingSpacesUnique(DEFAULT_FALLBACK, 0);
  }

  /** The wrapper's apology reads as no number, hence as progress 0. */
  lemma ApologyIsNoNumber()
    ensures ProgressValue(DEFAULT_FALLBACK) == 0
  {
    FallbackText();
    ApologyIsTrimmed();
    assert DigitPrefix(DEFAULT_FALLBACK, 10) == 0;
  }

  /** When the client fails, the wrapper's apology holds no "NO", so the
      apology itself becomes the book and the progress becomes 0, with a
      history entry for it. */
  lemma FailedCallsRecordApology(d: Diagnostic, message: string, client: Client)
    requires !TruthyStr(d.libro) && !TruthyNum(d.progreso) && message != ""
    requires client(BookPrompt(message)) == Threw
    requires client(ProgressPrompt(Some(DEFAULT_FALLBACK), message)) == Threw
    ensures Extract(d, message, client)
            == Diagnostic(Some(DEFAULT_FALLBACK), Some(0), d.historial + [ProgressEntry(DEFAULT_FALLBACK, 0, 0)])
  {
    FailedBookCallGivesApology(d.libro, message, client);
    ApologyHasNoRefusal();
    ApologyIsNoNumber();
  }

  /** The book step alone: a failed call makes the apology the book. */
  lemma FailedBookCallGivesApology(libro: Option<string>, message: string, client: Client)
    requires !TruthyStr(libro) && message != ""
    requires client(BookPrompt(message)) == Threw
    ensures ExtractBook(libro, message, client) == Some(DEFAULT_FALLBACK)
  {
    ApologyHasNoRefusal();
    ApologyIsTrimmed();
  }

  /** The client's own error text holds no "NO" either: when the book call
      fails inside the client, that text becomes the book. */
  lemma ClientErrorBecomesBook(libro: Option<string>, message: string, client: Client)
    requires !TruthyStr(libro) && message != ""
    requires client(BookPrompt(message)) == Answer(CLIENT_ERROR)
    ensures ExtractBook(libro, message, client) == Some(CLIENT_ERROR)
  {
    ClientErrorText();
    assert "NO"[0] == 'N';
    NotContainsWithoutChar(CLIENT_ERROR, "NO", 'N');
    assert Ask(client, BookPrompt(message)) == CLIENT_ERROR;
    LeadingSpacesUnique(CLIENT_ERROR, 0);
    assert TrimStart(CLIENT_ERROR) == CLIENT_ERROR;
    TrailingSpacesUnique(CLIENT_ERROR, 0);
    assert Trim(CLIENT_ERROR) == CLIENT_ERROR;
  }

  /** `_handleDiagnostic` lines 69-92: the book and progress steps, applied
      to the session in place. */
  method ExtractBookAndProgress(session: Session, message: string, client: Client)
    modifies session`libroActual, session`progresoLibro, session`historialAvance
    ensures DiagnosticOf(session) == Extract(old(DiagnosticOf(session)), message, client)
  {
    if !TruthyStr(session.libroActual) && message != "" {
      var bookResponse := Ask(client, BookPrompt(message));
      if !Contains(bookResponse, "NO") {
        session.libroActual := Some(Trim(bookResponse));
      }
    }
    if TruthyStr(session.libroActual) && !TruthyNum(session.progresoLibro) && message != "" {
      var progressResponse := Ask(client, ProgressPrompt(session.libroActual, message));
      if !Contains(progressResponse, "NO") {
        var p := ProgressValue(progressResponse);
        session.progresoLibro := Some(p);
        session.historialAvance := session.historialAvance + [ProgressEntry(session.libroActual.value, 0, p)];
      }
    }
  }

  // ---------------------------------------------------------------- handlers

  /** `_handleGreeting`: one greeting, recorded as a system message; the
      stage moves to "diagnostico". */
  method HandleGreeting(user: User, session: Session, client: Client) returns (r: string)
    modifies session`mensajes, session`etapaActual
    ensures r == Ask(client, GreetingPrompt(user)) && r != ""
    ensures session.mensajes == old(session.mensajes) + [SystemMessage(r, session.parametrosActuales)]
    ensures session.etapaActual == "diagnostico"
  {
    r := Ask(client, GreetingPrompt(user));
    session.mensajes := session.mensajes + [SystemMessage(r, session.parametrosActuales)];
    UpdateStage(session, "diagnostico");
  }

  /** `_handleDiagnostic` as it is meant to work: after the extraction, if a
      diagnostic field is missing, the question about the first one is
      recorded and the stage stays; otherwise the stage moves to
      "conversacion" and a transition message that mentions the last
      recorded progress is recorded. */
  method HandleDiagnostic(user: User, session: Session, message: string, client: Client) returns (r: string)
    modifies session`libroActual, session`progresoLibro, session`historialAvance
    modifies session`mensajes, session`etapaActual
    ensures DiagnosticOf(session) == Extract(old(DiagnosticOf(session)), message, client)
    ensures session.mensajes == old(session.mensajes) + [SystemMessage(r, session.parametrosActuales)]
    ensures r != ""
    ensures var missing := GetMissingFields(user, session, Some("diagnostico"));
      && (missing != [] ==>
            && session.etapaActual == old(session.etapaActual)
            && r == Ask(client, QuestionPrompt(missing[0], session.libroActual,
                                               Join(RecentContents(old(session.mensajes)), " | "))))
      && (missing == [] ==>
            && session.etapaActual == "conversacion"
            && r == Ask(client, TransitionPrompt(session.libroActual, session.progresoLibro,
                                                 GetProgressContext(session.historialAvance))))
  {
    ExtractBookAndProgress(session, message, client);
    r := AskOrConclude(user, session, client);
  }

  /** The part of `_handleDiagnostic` after the extraction: the question
      about the first missing field, or the move to the conversation. */
  method AskOrConclude(user: User, session: Session, client: Client) returns (r: string)
    modifies session`mensajes, session`etapaActual
    ensures session.mensajes == old(session.mensajes) + [SystemMessage(r, session.parametrosActuales)]
    ensures r != ""
    ensures var missing := GetMissingFields(user, session, Some("diagnostico"));
      && (missing != [] ==>
            && session.etapaActual == old(session.etapaActual)
            && r == Ask(client, QuestionPrompt(missing[0], session.libroActual,
                                               Join(RecentContents(old(session.mensajes)), " | "))))
      && (missing == [] ==>
            && session.etapaActual == "conversacion"
            && r == Ask(client, TransitionPrompt(session.libroActual, session.progresoLibro,
                                                 GetProgressContext(session.historialAvance))))
  {
    var missingFields := GetMissingFields(user, session, Some("diagnostico"));
    if |missingFields| > 0 {
      var context := Join(RecentContents(session.mensajes), " | ");
      r := AskMissingField(session, missingFields[0], context, client);
    } else {
      r := MoveToConversation(session, client);
    }
  }

  /** The question branch of `_handleDiagnostic`: the question about `field`,
      given the recent conversation `context`, is recorded; the stage is not
      touched. */
  method AskMissingField(session: Session, field: Field, context: string, client: Client) returns (r: string)
    modifies session`mensajes
    ensures r == Ask(client, QuestionPrompt(field, session.libroActual, context))
    ensures r != ""
    ensures session.mensajes == old(session.mensajes) + [SystemMessage(r, session.parametrosActuales)]
  {
    r := Ask(client, QuestionPrompt(field, session.libroActual, context));
    session.mensajes := session.mensajes + [SystemMessage(r, session.parametrosActuales)];
  }

  /** The transition branch of `_handleDiagnostic`: the stage moves to
      "conversacion" and the transition message, given the progress context
      of the history, is recorded. */
  method MoveToConversation(session: Session, client: Client) returns (r: string)
    modifies session`mensajes, session`etapaActual
    ensures session.etapaActual == "conversacion"
    ensures r == Ask(client, TransitionPrompt(session.libroActual, session.progresoLibro,
                                              GetProgressContext(session.historialAvance)))
    ensures r != ""
    ensures session.mensajes == old(session.mensajes) + [SystemMessage(r, session.parametrosActuales)]
  {
    UpdateStage(session, "conversacion");
    var context := GetProgressContext(session.historialAvance);
    r := Ask(client, TransitionPrompt(session.libroActual, session.progresoLibro, context));
    session.mensajes := session.mensajes + [SystemMessage(r, session.parametrosActuales)];
  }

  /** `_handleDiagnostic` as written: the missing fields are asked for
      without the stage argument, so the list is always empty and the
      handler always moves to "conversacion"; then getProgressContext
      receives the user's US_ID string as the session, and reading `length`
      of its missing HISTORIAL_AVANCE throws a TypeError. No message is
      recorded. */
  method HandleDiagnosticAsWritten(user: User, session: Session, message: string, client: Client)
    returns (r: Result<string>)
    modifies session`libroActual, session`progresoLibro, session`historialAvance, session`etapaActual
    ensures DiagnosticOf(session) == Extract(old(DiagnosticOf(session)), message, client)
    ensures session.etapaActual == "conversacion"
    ensures r == Err(TypeError("Cannot read properties of undefined (reading 'length')"))
  {
    ExtractBookAndProgress(session, message, client);
    var missingFields := GetMissingFields(user, session, None);
    assert missingFields == [];
    UpdateStage(session, "conversacion");
    r := Err(TypeError("Cannot read properties of undefined (reading 'length')"));
  }

  /** `_handleExploration`: one message, and the stage moves to
      "actividad". */
  method HandleExploration(user: User, session: Session, message: string, client: Client) returns (r: string)
    modifies session`mensajes, session`etapaActual
    ensures r == Ask(client, EXPLORATION_PROMPT) && r != ""
    ensures session.mensajes == old(session.mensajes) + [SystemMessage(r, session.parametrosActuales)]
    ensures session.etapaActual == "actividad"
  {
    r := Ask(client, EXPLORATION_PROMPT);
    session.mensajes := session.mensajes + [SystemMessage(r, session.parametrosActuales)];
    UpdateStage(session, "actividad");
  }

  /** `_handleActivity`: one message, and the stage moves to "cierre". */
  method HandleActivity(user: User, session: Session, message: string, client: Client) returns (r: string)
    modifies session`mensajes, session`etapaActual
    ensures r == Ask(client, ACTIVITY_PROMPT) && r != ""
    ensures session.mensajes == old(session.mensajes) + [SystemMessage(r, session.parametrosActuales)]
    ensures session.etapaActual == "cierre"
  {
    r := Ask(client, ACTIVITY_PROMPT);
    session.mensajes := session.mensajes + [SystemMessage(r, session.parametrosActuales)];
    UpdateStage(session, "cierre");
  }

  /** `_handleClosing`: a summary is stored, the session is marked finished
      and the closing message is recorded; the stage stays "cierre". */
  method HandleClosing(user: User, session: Session, message: string, client: Client) returns (r: string)
    modifies session`resumenSesion, session`finalizada, session`mensajes
    ensures session.resumenSesion == Some(Ask(client, SummaryPrompt(session.libroActual, user.nombre)))
    ensures session.finalizada
    ensures r == Ask(client, ClosingPrompt(user.nombre, session.libroActual)) && r != ""
    ensures session.mensajes == old(session.mensajes) + [SystemMessage(r, session.parametrosActuales)]
  {
    session.resumenSesion := Some(Ask(client, SummaryPrompt(session.libroActual, user.nombre)));
    r := Ask(client, ClosingPrompt(user.nombre, session.libroActual));
    session.finalizada := true;
    session.mensajes := session.mensajes + [SystemMessage(r, session.parametrosActuales)];
  }

  // ---------------------------------------------------------------- turn

  /** `User.findOne` and `Session.findOne`: both records exist and the
      session belongs to the user. */
  predicate Found(users: map<string, User>, sessions: map<string, Session>, userId: string, sessionId: string) {
    userId in users && sessionId in sessions && sessions[sessionId].usId == userId
  }

  const NOT_FOUND: JsError := NotFound("Usuario o sesión no encontrada")

  /** The stage switch of `handleUserMessage`: a handled stage records one
      system message, whose content is the reply, and moves along
      NextStage; any other stage yields the "¡Ups!" text and changes
      nothing. Only the diagnostic turn fills in the book and the progress,
      and only the closing turn the summary and the finished flag. The
      parameter snapshot is never touched. */
  method Dispatch(user: User, session: Session, message: string, client: Client) returns (r: string)
    modifies session`libroActual, session`progresoLibro, session`historialAvance
    modifies session`mensajes, session`etapaActual, session`resumenSesion, session`finalizada
    ensures old(session.etapaActual) in HANDLED_STAGES ==>
              session.mensajes == old(session.mensajes) + [SystemMessage(r, session.parametrosActuales)]
    ensures old(session.etapaActual) !in HANDLED_STAGES ==>
              r == UPS && session.mensajes == old(session.mensajes)
    ensures session.etapaActual
            == NextStage(old(session.etapaActual), GetMissingFields(user, session, Some("diagnostico")) != [])
    ensures old(session.etapaActual) != "diagnostico" ==>
              && session.libroActual == old(session.libroActual)
              && session.progresoLibro == old(session.progresoLibro)
              && session.historialAvance == old(session.historialAvance)
    ensures old(session.etapaActual) != "cierre" ==>
              session.resumenSesion == old(session.resumenSesion) && session.finalizada == old(session.finalizada)
  {
    var stage := session.etapaActual;
    if stage == "saludo" {
      r := HandleGreeting(user, session, client);
    } else if stage == "diagnostico" {
      r := DiagnosticStep(user, session, message, client);
    } else if stage == "exploracion" {
      r := HandleExploration(user, session, message, client);
    } else if stage == "actividad" {
      r := HandleActivity(user, session, message, client);
    } else if stage == "cierre" {
      r := HandleClosing(user, session, message, client);
    } else {
      r := UPS;
    }
  }

  /** The diagnostic handler as the stage switch sees it: one system
      message, and the stage moves along NextStage. HandleDiagnostic states
      the rest; keeping it out of Dispatch keeps the switch's proof small. */
  method DiagnosticStep(user: User, session: Session, message: string, client: Client) returns (r: string)
    requires session.etapaActual == "diagnostico"
    modifies session`libroActual, session`progresoLibro, session`historialAvance
    modifies session`mensajes, session`etapaActual
    ensures session.mensajes == old(session.mensajes) + [SystemMessage(r, session.parametrosActuales)]
    ensures session.etapaActual == NextStage("diagnostico", GetMissingFields(user, session, Some("diagnostico")) != [])
  {
    r := HandleDiagnostic(user, session, message, client);
  }

  /** One turn on a found user and session: the child's message is recorded
      first, with the emotion the session had, then the parameter analyser
      runs and the stage switch answers. The parameter snapshot
      PARAMETROS_ACTUALES never changes, and a document that satisfies the
      schema still does afterwards. The book, the progress, the summary and
      the finished flag change only in the stages that fill them in. */
  method Turn(user: User, session: Session, message: string, client: Client, parse: JsonParse) returns (r: string)
    modifies session`mensajes, session`comprension, session`emocion, session`motivacion
    modifies session`libroActual, session`progresoLibro, session`historialAvance
    modifies session`etapaActual, session`resumenSesion, session`finalizada
    ensures session.parametrosActuales == old(session.parametrosActuales)
    ensures var said := old(session.mensajes) + [Message(message, "usuario", old(session.emocion), None)];
      && (old(session.etapaActual) !in HANDLED_STAGES ==> r == UPS && session.mensajes == said)
      && (old(session.etapaActual) in HANDLED_STAGES ==>
            session.mensajes == said + [SystemMessage(r, session.parametrosActuales)])
    ensures session.etapaActual
            == NextStage(old(session.etapaActual), GetMissingFields(user, session, Some("diagnostico")) != [])
    ensures old(session.SchemaValid()) ==> session.SchemaValid()
    ensures old(session.etapaActual) != "diagnostico" ==>
              && session.libroActual == old(session.libroActual)
              && session.progresoLibro == old(session.progresoLibro)
              && session.historialAvance == old(session.historialAvance)
    ensures old(session.etapaActual) != "cierre" ==>
              session.resumenSesion == old(session.resumenSesion) && session.finalizada == old(session.finalizada)
  {
    RecordAndAnalyse(session, message, client, parse);
    ghost var stage := session.etapaActual;
    r := Dispatch(user, session, message, client);
    if stage in SCHEMA_STAGES {
      NextStageKeepsSchema(stage, GetMissingFields(user, session, Some("diagnostico")) != []);
    }
  }

  /** The first two steps of a turn: the child's message is recorded with
      the emotion the session had, then the parameter analyser updates the
      three levels as UpdateSessionParams states. Nothing else changes. */
  method RecordAndAnalyse(session: Session, message: string, client: Client, parse: JsonParse)
    modifies session`mensajes, session`comprension, session`emocion, session`motivacion
    ensures session.mensajes == old(session.mensajes) + [Message(message, "usuario", old(session.emocion), None)]
  {
    SaveMessage(session, message, "usuario", None);
    UpdateSessionParams(session, message, client, parse);
  }

  /** `handleUserMessage({userId, sessionId, message})` with the parameter
      analyser called under its exported name. When the user or the session
      is missing nothing changes; otherwise one turn runs. */
  method HandleUserMessage(users: map<string, User>, sessions: map<string, Session>,
                           userId: string, sessionId: string, message: string,
                           client: Client, parse: JsonParse) returns (r: Result<string>)
    modifies (if sessionId in sessions then {sessions[sessionId]} else {})`mensajes
    modifies (if sessionId in sessions then {sessions[sessionId]} else {})`comprension
    modifies (if sessionId in sessions then {sessions[sessionId]} else {})`emocion
    modifies (if sessionId in sessions then {sessions[sessionId]} else {})`motivacion
    modifies (if sessionId in sessions then {sessions[sessionId]} else {})`libroActual
    modifies (if sessionId in sessions then {sessions[sessionId]} else {})`progresoLibro
    modifies (if sessionId in sessions then {sessions[sessionId]} else {})`historialAvance
    modifies (if sessionId in sessions then {sessions[sessionId]} else {})`etapaActual
    modifies (if sessionId in sessions then {sessions[sessionId]} else {})`resumenSesion
    modifies (if sessionId in sessions then {sessions[sessionId]} else {})`finalizada
    ensures !Found(users, sessions, userId, sessionId) ==> r == Err(NOT_FOUND)
    ensures !Found(users, sessions, userId, sessionId) && sessionId in sessions ==> unchanged(sessions[sessionId])
    ensures Found(users, sessions, userId, sessionId) ==>
      var session := sessions[sessionId];
      var said := old(session.mensajes) + [Message(message, "usuario", old(session.emocion), None)];
      var stage := old(session.etapaActual);
      && r.Ok?
      && session.parametrosActuales == old(session.parametrosActuales)
      && (stage !in HANDLED_STAGES ==> r.value == UPS && session.mensajes == said && session.etapaActual == stage)
      && (stage in HANDLED_STAGES ==> session.mensajes == said + [SystemMessage(r.value, session.parametrosActuales)])
      && session.etapaActual == NextStage(stage, GetMissingFields(users[userId], session, Some("diagnostico")) != [])
      && (old(session.SchemaValid()) ==> session.SchemaValid())
      && (stage != "diagnostico" ==>
            && session.libroActual == old(session.libroActual)
            && session.progresoLibro == old(session.progresoLibro)
            && session.historialAvance == old(session.historialAvance))
      && (stage != "cierre" ==>
            session.resumenSesion == old(session.resumenSesion) && session.finalizada == old(session.finalizada))
  {
    if !Found(users, sessions, userId, sessionId) {
      return Err(NOT_FOUND);
    }
    var text := Turn(users[userId], sessions[sessionId], message, client, parse);
    r := Ok(text);
  }

  /** `handleUserMessage` as written: after the lookup and the recording of
      the child's message, it calls `stateService.updateSessionParameters`,
      which the state service does not export, so every turn with a found
      user and session ends in a TypeError with only the child's message
      added. */
  method HandleUserMessageAsWritten(users: map<string, User>, sessions: map<string, Session>,
                                    userId: string, sessionId: string, message: string)
    returns (r: Result<string>)
    modifies (if sessionId in sessions then {sessions[sessionId]} else {})`mensajes
    ensures !Found(users, sessions, userId, sessionId) ==> r == Err(NOT_FOUND)
    ensures !Found(users, sessions, userId, sessionId) && sessionId in sessions ==> unchanged(sessions[sessionId])
    ensures Found(users, sessions, userId, sessionId) ==>
      var session := sessions[sessionId];
      && r == Err(TypeError("stateService.updateSessionParameters is not a function"))
      && session.mensajes == old(session.mensajes) + [Message(message, "usuario", old(session.emocion), None)]
      && session.etapaActual == old(session.etapaActual)
  {
    if !Found(users, sessions, userId, sessionId) {
      return Err(NOT_FOUND);
    }
    var session := sessions[sessionId];
    SaveMessage(session, message, "usuario", None);
    r := Err(TypeError("stateService.updateSessionParameters is not a function"));
  }
}
