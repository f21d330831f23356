/** The response helpers: the tone and stage-instruction tables, the
    pass-through formatter, and the prompt builder with its defaults and its
    white-space normalisation (`.replace(/\n\s+/g, '\n').trim()`). */
module ResponseService {

  import opened Values
  import opened JsString
  import opened SessionModel
  import opened StateService
  import opened TextNormalise

  // ---------------------------------------------------------------- tables

  /** `getTone(session)`: from the top-level EMOCION and MOTIVACION the
      parameter analyser writes. */
  function GetTone(session: Session): (r: string)
    reads session
    ensures session.emocion == Some("baja") ==> r == "empático y motivador"
    ensures session.emocion != Some("baja") && session.motivacion == Some("baja") ==> r == "entusiasta y alentador"
    ensures session.emocion != Some("baja") && session.motivacion != Some("baja") ==> r == "amigable y positivo"
  {
    if session.emocion == Some("baja") then "empático y motivador"
    else if session.motivacion == Some("baja") then "entusiasta y alentador"
    else "amigable y positivo"
  }

  /** No tone holds a line break. */
  lemma ToneHasNoLineBreak(session: Session)
    ensures '\n' !in GetTone(session)
  {
    assert '\n' !in "empático y motivador";
    assert '\n' !in "entusiasta y alentador";
    assert '\n' !in "amigable y positivo";
  }

  /** The tone and the activity group follow the same priority: the
      empathetic tone goes with the emotion activities, the encouraging tone
      with the motivation activities. */
  lemma ToneMatchesActivityType(session: Session)
    ensures GetTone(session) == "empático y motivador" <==> GetActivityType(session) == Some(Emocion)
    ensures GetTone(session) == "entusiasta y alentador" <==> GetActivityType(session) == Some(Motivacion)
  {
  }

  /** `getStageInstruction(etapa)`: a fixed instruction for the diagnostic,
      exploration and activity stages, and the empty string for every other
      stage. */
  function GetStageInstruction(etapa: string): (r: string)
    ensures etapa == "diagnostico" ==> r == "Haz solo UNA pregunta clara y simple."
    ensures etapa == "exploracion" ==> r == "Haz una pregunta o comentario sobre el libro."
    ensures etapa == "actividad" ==> r == "Realiza la actividad sugerida de forma divertida."
    ensures r == "" <==> etapa !in {"diagnostico", "exploracion", "actividad"}
  {
    match etapa
    case "diagnostico" => "Haz solo UNA pregunta clara y simple."
    case "exploracion" => "Haz una pregunta o comentario sobre el libro."
    case "actividad" => "Realiza la actividad sugerida de forma divertida."
    case _ => ""
  }

  /** The options object the callers pass to formatResponse. */
  datatype FormatOptions = FormatOptions(isQuestion: Option<bool>, addMotivation: Option<bool>)

  /** `formatResponse(user, text, options)`: the text, unchanged, whatever
      the user and the options. */
  function FormatResponse<T>(user: User, text: T, options: FormatOptions): (r: T)
    ensures r == text
  {
    text
  }

  // ---------------------------------------------------------------- prompt

  /** The values `buildPrompt` interpolates for the user and the session,
      after its `||` defaults. */
  datatype PromptValues = PromptValues(
    edad: string, nombre: string, libro: string, progreso: string, objetivo: string, intereses: string)

  /** `user.INTERESES?.join(', ') || 'no especificados'`. */
  function InterestsText(intereses: Option<seq<string>>): (r: string)
    ensures r != ""
    ensures !(intereses.Some? && Join(intereses.value, ", ") != "") ==> r == "no especificados"
    ensures intereses.Some? && Join(intereses.value, ", ") != "" ==> r == Join(intereses.value, ", ")
  {
    if intereses.Some? && Join(intereses.value, ", ") != "" then Join(intereses.value, ", ")
    else "no especificados"
  }

  /** The interests fall back to the default exactly when there are none,
      or when the only one is empty; two or more always show, since the
      separator is not empty. */
  lemma InterestsDefaultCases(intereses: Option<seq<string>>)
    ensures InterestsText(intereses)
            == if intereses == None || intereses.value == [] || intereses.value == [""] then "no especificados"
               else Join(intereses.value, ", ")
  {
    if intereses.Some? && |intereses.value| >= 2 {
      var xs := intereses.value;
      assert Join(xs, ", ") == xs[0] + ", " + Join(xs[1..], ", ");
      assert |Join(xs, ", ")| >= 2;
    }
  }

  /** The defaults: 'X' for the age, 'niño' for the name, 'un libro' for the
      book, 0 for the progress, 'fomentar la lectura' for the objective and
      'no especificados' for the interests; a falsy value (an empty string,
      the number 0) takes the default as a missing one does. */
  function PromptDefaults(user: User, session: Session): (v: PromptValues)
    reads session
    ensures !TruthyNum(user.edad) ==> v.edad == "X"
    ensures TruthyNum(user.edad) ==> v.edad == IntToString(user.edad.value)
    ensures !TruthyStr(user.nombre) ==> v.nombre == "niño"
    ensures TruthyStr(user.nombre) ==> v.nombre == user.nombre.value
    ensures !TruthyStr(session.libroActual) ==> v.libro == "un libro"
    ensures TruthyStr(session.libroActual) ==> v.libro == session.libroActual.value
    ensures !TruthyNum(session.progresoLibro) ==> v.progreso == "0"
    ensures TruthyNum(session.progresoLibro) ==> v.progreso == IntToString(session.progresoLibro.value)
    ensures !TruthyStr(session.objetivoSesion) ==> v.objetivo == "fomentar la lectura"
    ensures TruthyStr(session.objetivoSesion) ==> v.objetivo == session.objetivoSesion.value
    ensures v.intereses == InterestsText(user.intereses)
  {
    PromptValues(
      NumOr(user.edad, "X"),
      StrOr(user.nombre, "niño"),
      StrOr(session.libroActual, "un libro"),
      NumOr(session.progresoLibro, "0"),
      StrOr(session.objetivoSesion, "fomentar la lectura"),
      InterestsText(user.intereses))
  }

  /** The bracketed line of current parameters (from the top-level levels,
      "undefined" when unset). */
  function ParamsLine(session: Session): string
    reads session
  {
    PARAMS_HEAD + ShowStr(session.comprension) + PARAMS_EMOTION + ShowStr(session.emocion)
    + PARAMS_MOTIVATION + ShowStr(session.motivacion) + "]"
  }

  const PARAMS_HEAD: string := "[Parámetros actuales: Comprensión "
  const PARAMS_EMOTION: string := ", Emoción "
  const PARAMS_MOTIVATION: string := ", Motivación "

  /** The tone line of the template. */
  function ToneLine(tone: string): string {
    TONE_HEAD + tone + "."
  }

  const TONE_HEAD: string := "3. Mantén un tono "

  /** The quoted last message. */
  function Quoted(message: string): string {
    "\"" + message + "\""
  }

  /** The template text before the tone line. */
  function TemplateHead(v: PromptValues, params: string, etapa: string, extraContext: string): string {
    HEAD_AGE + v.edad + HEAD_USER + v.nombre + HEAD_BOOK + v.libro + HEAD_PROGRESS + v.progreso
    + HEAD_PARAMS + params + HEAD_STAGE + etapa + HEAD_GOAL + v.objetivo
    + HEAD_INTERESTS + v.intereses + INDENT + extraContext + HEAD_RULES
  }

  const INDENT: string := "\n      "
  const HEAD_AGE: string := "\n      Eres Lecti, un asistente de lectura para niños de "
  const HEAD_USER: string := " años.\n      Usuario: "
  const HEAD_BOOK: string := " | Libro: \""
  const HEAD_PROGRESS: string := "\" ("
  const HEAD_PARAMS: string := "%)\n      "
  const HEAD_STAGE: string := "\n      Etapa: "
  const HEAD_GOAL: string := " | Objetivo: "
  const HEAD_INTERESTS: string := "\n      Intereses: "
  const HEAD_RULES: string :=
    "\n      Instrucciones:"
    + "\n      1. Sé breve (1-2 oraciones máximo)."
    + "\n      2. Adapta el lenguaje a la edad del usuario."
    + "\n      "

  /** The template text between the tone line and the quoted message. */
  function TemplateMiddle(instruction: string): string {
    MIDDLE_HEAD + instruction + MIDDLE_TAIL
  }

  const MIDDLE_HEAD: string := "\n      4. "
  const MIDDLE_TAIL: string := "\n      Último mensaje del usuario: "

  /** The template text after the quoted message. */
  function TemplateTail(): string {
    TAIL_TEXT
  }

  const TAIL_TEXT: string := "\n      Respuesta:"

  /** The template literal before normalisation. */
  function Template(v: PromptValues, params: string, etapa: string, extraContext: string,
                    tone: string, instruction: string, message: string): string
  {
    TemplateHead(v, params, etapa, extraContext) + ToneLine(tone) + TemplateMiddle(instruction)
    + Quoted(message) + TemplateTail()
  }

  /** The tone line has no line break when the tone has none. */
  lemma ToneLineClean(tone: string)
    requires '\n' !in tone
    ensures CollapseNewlineSpace(ToneLine(tone)) == ToneLine(tone)
  {
    var line := ToneLine(tone);
    assert '\n' !in TONE_HEAD;
    assert '\n' !in line;
    NoLineBreakIsClean(line);
    CollapseKeepsClean(line);
  }

  /** The quotes around the message survive the collapsing. */
  lemma QuotedCollapse(message: string)
    ensures CollapseNewlineSpace(Quoted(message)) == Quoted(CollapseNewlineSpace(message))
  {
    assert Quoted(message) == "\"" + (message + "\"");
    CollapseOfConcat("\"", message + "\"");
    CollapseOfConcat(message, "\"");
    CollapseKeepsClean("\"");
  }

  /** The normalised template keeps its tone line (when the tone has no
      line break) and its quoted message, the latter with its line-break runs
      collapsed. */
  lemma NormalisedTemplate(v: PromptValues, params: string, etapa: string, extraContext: string,
                           tone: string, instruction: string, message: string)
    requires '\n' !in tone
    ensures Contains(Normalise(Template(v, params, etapa, extraContext, tone, instruction, message)), ToneLine(tone))
    ensures Contains(Normalise(Template(v, params, etapa, extraContext, tone, instruction, message)),
                     Quoted(CollapseNewlineSpace(message)))
  {
    var line := ToneLine(tone);
    var q := Quoted(message);
    assert line[0] == '3' && line[|line| - 1] == '.';
    assert q[0] == '"' && q[|q| - 1] == '"';
    NormaliseKeepsTwoParts(TemplateHead(v, params, etapa, extraContext), line, TemplateMiddle(instruction), q, TemplateTail());
    ToneLineClean(tone);
    QuotedCollapse(message);
  }

  /** `buildPrompt({user, session, message, etapa, extraContext})` with the
      tone and the stage instruction taken from getTone and
      getStageInstruction: the filled template, normalised. The result has no
      line break followed by white space and no white space at either end;
      it holds the session's tone line, and the last message between double
      quotes (with its own line-break runs collapsed, so verbatim when it has
      none). */
  function BuildPrompt(user: User, session: Session, message: string, etapa: string, extraContext: string): (r: string)
    reads session
    ensures NoNewlineSpace(r)
    ensures Trimmed(r)
    ensures Contains(r, ToneLine(GetTone(session)))
    ensures Contains(r, Quoted(CollapseNewlineSpace(message)))
    ensures NoNewlineSpace(message) ==> Contains(r, Quoted(message))
  {
    var v := PromptDefaults(user, session);
    ToneHasNoLineBreak(session);
    NormalisedTemplate(v, ParamsLine(session), etapa, extraContext, GetTone(session), GetStageInstruction(etapa), message);
    CleanMessage(message);
    Normalise(Template(v, ParamsLine(session), etapa, extraContext, GetTone(session),
                       GetStageInstruction(etapa), message))
  }

  /** A message without line-break runs is its own collapse. */
  lemma CleanMessage(message: string)
    ensures NoNewlineSpace(message) ==> CollapseNewlineSpace(message) == message
  {
    if NoNewlineSpace(message) {
      CollapseKeepsClean(message);
    }
  }

  /** The member names of the module's original `exports` object. Assigning
      a new object to `module.exports` replaces what the module exports but
      leaves that original object empty, and it is what `this` denotes in a
      module-level arrow function. */
  const ORIGINAL_EXPORTS: set<string> := {}

  /** `buildPrompt` as written: the template calls `this.getTone`, but in a
      module-level arrow function `this` is the module's original exports
      object, which has no getTone, so the call throws a TypeError before a
      prompt is produced. */
  function BuildPromptAsWritten(user: User, session: Session, message: string, etapa: string, extraContext: string)
    : (r: Result<string>)
    reads session
    ensures r == Err(TypeError("this.getTone is not a function"))
  {
    BuildPromptWithThis(ORIGINAL_EXPORTS, user, session, message, etapa, extraContext)
  }

  /** The template evaluated with `this` an object holding the members named
      in `members`: the first of `this.getTone` and `this.getStageInstruction`
      that is missing throws; with both present it is the prompt. */
  function BuildPromptWithThis(members: set<string>, user: User, session: Session, message: string,
                               etapa: string, extraContext: string): (r: Result<string>)
    reads session
    ensures "getTone" !in members ==> r == Err(TypeError("this.getTone is not a function"))
    ensures "getTone" in members && "getStageInstruction" !in members ==>
              r == Err(TypeError("this.getStageInstruction is not a function"))
    ensures r.Ok? <==> "getTone" in members && "getStageInstruction" in members
    ensures r.Ok? ==> r.value == BuildPrompt(user, session, message, etapa, extraContext)
  {
    if "getTone" !in members then Err(TypeError("this.getTone is not a function"))
    else if "getStageInstruction" !in members then Err(TypeError("this.getStageInstruction is not a function"))
    else Ok(BuildPrompt(user, session, message, etapa, extraContext))
  }
}
