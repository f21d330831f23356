/** The activity catalogue: nine activities grouped by the deficient
    parameter they address (plus a general group), a random pick within the
    group the session's levels select, and the one-line summary of the
    reading progress recorded so far. */
module ActivityService {

  import opened Values
  import opened JsString
  import opened SessionModel
  import opened StateService

  /** The entries of the catalogue. */
  datatype Activity =
    | Chiste | DatoCurioso | Animar
    | Reto | PreguntaIntriga
    | PreguntaComprension | Resumen
    | PreguntaExploracion | ConexionPersonal
  {
    /** The `tipo` label of the entry. */
    function Tipo(): string {
      match this
      case Chiste => "chiste"
      case DatoCurioso => "dato_curioso"
      case Animar => "animar"
      case Reto => "reto"
      case PreguntaIntriga => "pregunta_intriga"
      case PreguntaComprension => "pregunta_comprension"
      case Resumen => "resumen"
      case PreguntaExploracion => "pregunta_exploracion"
      case ConexionPersonal => "conexion_personal"
    }

    /** The group the entry belongs to; `None` is the general group. */
    function Group(): Option<ActivityType> {
      match this
      case Chiste | DatoCurioso | Animar => Some(Emocion)
      case Reto | PreguntaIntriga => Some(Motivacion)
      case PreguntaComprension | Resumen => Some(Comprension)
      case PreguntaExploracion | ConexionPersonal => None
    }

    /** The prompt the entry builds from the interpolated book title,
        progress and history; an entry ignores the arguments its template
        does not mention. */
    function Prompt(libro: string, progreso: string, historial: string): string {
      match this
      case Chiste =>
        "Genera un chiste breve y apropiado sobre \"" + libro + "\" o sus personajes."
      case DatoCurioso =>
        "Comparte un dato curioso o interesante sobre \"" + libro
        + "\" que sea relevante para la parte que el usuario ha leído (alrededor del "
        + progreso + "% del libro)."
      case Animar =>
        "Motiva al usuario con un mensaje positivo relacionado con la lectura de \"" + libro + "\"."
      case Reto =>
        "Propón un pequeño reto divertido relacionado con \"" + libro
        + "\" para motivar al usuario a seguir leyendo."
      case PreguntaIntriga =>
        "Haz una pregunta intrigante sobre lo que podría pasar después en \"" + libro
        + "\" (basado en el " + progreso + "% de avance)."
      case PreguntaComprension =>
        "Haz una pregunta sencilla para verificar la comprensión de la parte reciente de \""
        + libro + "\"."
      case Resumen =>
        "Pide al usuario que resuma brevemente lo que ha leído recientemente en \"" + libro + "\"."
      case PreguntaExploracion =>
        "Haz una pregunta exploratoria sobre \"" + libro
        + "\" considerando que el usuario ya ha leído hasta el " + progreso
        + "% y el historial previo: " + historial + "."
      case ConexionPersonal =>
        "Pregunta cómo se relaciona la historia de \"" + libro
        + "\" con experiencias personales del usuario."
    }
  }

  /** `ACTIVIDADES[type]`, or `ACTIVIDADES.general` when there is no type:
      exactly the entries of that group, each once, in catalogue order. */
  function Catalog(t: Option<ActivityType>): (r: seq<Activity>)
    ensures |r| >= 2
    ensures forall a :: a in r <==> a.Group() == t
    ensures forall i, j :: 0 <= i < j < |r| ==> r[i] != r[j]
  {
    match t
    case Some(Emocion) => [Chiste, DatoCurioso, Animar]
    case Some(Motivacion) => [Reto, PreguntaIntriga]
    case Some(Comprension) => [PreguntaComprension, Resumen]
    case None => [PreguntaExploracion, ConexionPersonal]
  }

  /** The entry chosen for the group `t` by the draw `r`. */
  function ChosenActivity(t: Option<ActivityType>, r: real): (a: Activity)
    requires 0.0 <= r < 1.0
    ensures a.Group() == t
  {
    var list := Catalog(t);
    list[Pick(r, |list|)]
  }

  /** Every entry of a group is chosen by some draw. */
  lemma EveryActivityChosen(a: Activity)
    ensures exists r :: 0.0 <= r < 1.0 && ChosenActivity(a.Group(), r) == a
  {
    var list := Catalog(a.Group());
    var i :| 0 <= i < |list| && list[i] == a;
    PickReachesEveryIndex(|list|, i);
    var r :| 0.0 <= r < 1.0 && Pick(r, |list|) == i;
    assert ChosenActivity(a.Group(), r) == a;
  }

  /** One entry of HISTORIAL_AVANCE as the history string shows it. */
  function FormatEntry(e: ProgressEntry): string {
    e.libro + " (" + IntToString(e.avanceActual) + "%)"
  }

  /** The formatted entries, in order. */
  function FormatEntries(h: seq<ProgressEntry>): (r: seq<string>)
    ensures |r| == |h| && forall i :: 0 <= i < |h| ==> r[i] == FormatEntry(h[i])
  {
    seq(|h|, i requires 0 <= i < |h| => FormatEntry(h[i]))
  }

  /** `HISTORIAL_AVANCE.slice(-3).map(...).join(', ')`. */
  function HistoryString(h: seq<ProgressEntry>): string {
    Join(FormatEntries(SliceLast(h, 3)), ", ")
  }

  /** Entries older than the last three never appear in the history. */
  lemma HistoryIgnoresOlder(older: seq<ProgressEntry>, h: seq<ProgressEntry>)
    requires |h| >= 3
    ensures HistoryString(older + h) == HistoryString(h)
  {
    assert SliceLast(older + h, 3) == SliceLast(h, 3);
  }

  /** While the history has fewer than three entries, a new entry is
      appended to the string after a comma. */
  lemma {:induction false} HistoryAfterPush(h: seq<ProgressEntry>, e: ProgressEntry)
    requires 1 <= |h| < 3
    ensures HistoryString(h + [e]) == HistoryString(h) + ", " + FormatEntry(e)
  {
    assert FormatEntries(h + [e]) == FormatEntries(h) + [FormatEntry(e)];
    JoinSnoc(FormatEntries(h), FormatEntry(e), ", ");
  }

  /** `getActivityPrompt(session)` for the draw `r` of Math.random: the
      prompt of an entry of the group that the session's levels select,
      applied to the book, the progress and the recent history. */
  function GetActivityPrompt(session: Session, r: real): (p: string)
    reads session
    requires 0.0 <= r < 1.0
    ensures exists a: Activity :: a.Group() == GetActivityType(session)
              && p == a.Prompt(ShowStr(session.libroActual), ShowNum(session.progresoLibro),
                               HistoryString(session.historialAvance))
  {
    ChosenActivity(GetActivityType(session), r)
      .Prompt(ShowStr(session.libroActual), ShowNum(session.progresoLibro), HistoryString(session.historialAvance))
  }

  /** `getProgressContext(session)`, on the session's HISTORIAL_AVANCE:
      empty for an empty history, otherwise a sentence naming the last
      entry's progress and book. */
  function GetProgressContext(h: seq<ProgressEntry>): (r: string)
    ensures r == "" <==> h == []
    ensures h != [] ==> Contains(r, "\"" + h[|h| - 1].libro + "\"")
    ensures h != [] ==> Contains(r, IntToString(h[|h| - 1].avanceActual) + "%")
  {
    if h == [] then ""
    else
      var last := h[|h| - 1];
      var pct := IntToString(last.avanceActual) + "%";
      var book := "\"" + last.libro + "\"";
      ContainsMiddles(LAST_SESSION_HEAD, pct, LAST_SESSION_OF, book, ".");
      LAST_SESSION_HEAD + pct + LAST_SESSION_OF + book + "."
  }

  const LAST_SESSION_HEAD: string := "En la última sesión, el usuario leyó hasta el "
  const LAST_SESSION_OF: string := " de "

  /** Only the last entry of the history matters. */
  lemma ProgressContextOfLast(h: seq<ProgressEntry>, e: ProgressEntry)
    ensures GetProgressContext(h + [e]) == GetProgressContext([e])
  {
  }
}
