/** The records the conversation engine works on: the session document with
    its message log and progress history, and the user fields the engine
    reads. Enumerations and defaults are those of the Mongoose schemas. */
module SessionModel {

  import opened Values
  import opened JsString

  /** The values the schema admits for each field of PARAMETROS_ACTUALES. */
  const LEVELS: set<string> := {"alta", "media", "baja"}

  /** The values the schema admits for ETAPA_ACTUAL. The orchestrator also
      uses "exploracion" and "actividad", which are not among them. */
  const SCHEMA_STAGES: set<string> := {"saludo", "diagnostico", "conversacion", "cierre"}

  const DEFAULT_STAGE: string := "saludo"
  const DEFAULT_LEVEL: string := "media"

  /** A PARAMETROS_ACTUALES value, or the PARAMETROS snapshot of a message:
      exactly the fields comprension, emocion and motivacion. */
  datatype Params = Params(comprension: string, emocion: string, motivacion: string)

  const DEFAULT_PARAMS: Params := Params(DEFAULT_LEVEL, DEFAULT_LEVEL, DEFAULT_LEVEL)

  predicate SchemaParams(p: Params) {
    p.comprension in LEVELS && p.emocion in LEVELS && p.motivacion in LEVELS
  }

  /** An entry of MENSAJES. The id (IDM) and the timestamp (FECHA_HORA) are
      not part of this model. */
  datatype Message = Message(
    contenido: string,
    emisor: string,
    emocion: Option<string>,
    parametros: Option<Params>)

  /** An entry of HISTORIAL_AVANCE (its timestamp is not modelled). */
  datatype ProgressEntry = ProgressEntry(libro: string, avanceAnterior: int, avanceActual: int)

  /** An entry of HISTORIAL_PARAMETROS (its timestamp is not modelled). */
  datatype ParamsEntry = ParamsEntry(comprension: Option<string>, emocion: Option<string>, motivacion: Option<string>)

  /** The fields of a user record that the engine reads. */
  datatype User = User(
    usId: string,
    nombre: Option<string>,
    edad: Option<int>,
    intereses: Option<seq<string>>)

  /** `messages.slice(-3).map(m => m.CONTENIDO)`: the contents of the last
      three messages, oldest first. */
  function RecentContents(ms: seq<Message>): (r: seq<string>)
    ensures |r| == if |ms| < 3 then |ms| else 3
    ensures forall i :: 0 <= i < |r| ==> r[i] == ms[|ms| - |r| + i].contenido
  {
    var last := SliceLast(ms, 3);
    seq(|last|, i requires 0 <= i < |last| => last[i].contenido)
  }

  /** The recent contents depend only on the last three messages. */
  lemma RecentContentsIgnoresOlder(older: seq<Message>, ms: seq<Message>)
    requires |ms| >= 3
    ensures RecentContents(older + ms) == RecentContents(ms)
  {
    var a, b := RecentContents(older + ms), RecentContents(ms);
    assert |a| == 3 == |b|;
    forall i | 0 <= i < 3 ensures a[i] == b[i] {
      assert (older + ms)[|older + ms| - 3 + i] == ms[|ms| - 3 + i];
    }
  }

  /** A session document. Fields the services assign are `var`s; the two
      identifiers never change. */
  class Session {
    const usId: string
    const sessionId: string
    var libroActual: Option<string>
    var progresoLibro: Option<int>
    var finalizada: bool
    var mensajes: seq<Message>
    /** ETAPA_ACTUAL; "" stands for an unset stage. */
    var etapaActual: string
    var parametrosActuales: Params
    var historialParametros: seq<ParamsEntry>
    var historialAvance: seq<ProgressEntry>
    var resumenSesion: Option<string>
    var ultimaActividad: Option<string>
    /** Fields outside the schema that the services read or write on the
        in-memory document: the session goal, and the three levels the
        parameter analyser assigns at the top level of the document. */
    var objetivoSesion: Option<string>
    var comprension: Option<string>
    var emocion: Option<string>
    var motivacion: Option<string>

    /** What the schema enforces when the document is saved. */
    ghost predicate SchemaValid()
      reads this
    {
      && usId != "" && sessionId != ""
      && etapaActual in SCHEMA_STAGES
      && SchemaParams(parametrosActuales)
    }

    /** A new document with the schema's defaults; US_ID and SESSION_ID are
        required. */
    constructor (usId: string, sessionId: string)
      requires usId != "" && sessionId != ""
      ensures SchemaValid()
      ensures this.usId == usId && this.sessionId == sessionId
      ensures etapaActual == DEFAULT_STAGE && parametrosActuales == DEFAULT_PARAMS
      ensures !finalizada
      ensures mensajes == [] && historialParametros == [] && historialAvance == []
      ensures libroActual == None && progresoLibro == None
      ensures resumenSesion == None && ultimaActividad == None && objetivoSesion == None
      ensures comprension == None && emocion == None && motivacion == None
    {
      this.usId := usId;
      this.sessionId := sessionId;
      libroActual := None;
      progresoLibro := None;
      finalizada := false;
      mensajes := [];
      etapaActual := DEFAULT_STAGE;
      parametrosActuales := DEFAULT_PARAMS;
      historialParametros := [];
      historialAvance := [];
      resumenSesion := None;
      ultimaActividad := None;
      objetivoSesion := None;
      comprension := None;
      emocion := None;
      motivacion := None;
    }
  }
}
