/** The stage and parameter helpers of the conversation engine: the stage
    default, the list of diagnostic fields still missing, the stage setter,
    the parameter analyser (reply cleaning and merge) and the choice of an
    activity type from the analysed levels. */
module StateService {

  import opened Values
  import opened JsString
  import opened SessionModel
  import opened GeminiWrapper

  // ---------------------------------------------------------------- stage

  /** `getCurrentStage`: the stored stage, or "saludo" when it is unset. */
  function GetCurrentStage(session: Session): (r: string)
    reads session
    ensures r != ""
    ensures session.etapaActual != "" ==> r == session.etapaActual
    ensures session.etapaActual == "" ==> r == DEFAULT_STAGE
  {
    if session.etapaActual != "" then session.etapaActual else DEFAULT_STAGE
  }

  /** `updateStage`: stores the requested stage as it is, with no check
      against the schema or a transition graph, and changes nothing else. */
  method UpdateStage(session: Session, nextStage: string)
    modifies session`etapaActual
    ensures session.etapaActual == nextStage
  {
    session.etapaActual := nextStage;
  }

  // ---------------------------------------------------------------- missing fields

  /** The diagnostic fields, in the order in which they are asked for. */
  datatype Field = Edad | Nombre | LibroActual | ProgresoLibro {

    /** The name the services use for the field. */
    function Name(): string {
      match this
      case Edad => "EDAD"
      case Nombre => "NOMBRE"
      case LibroActual => "LIBRO_ACTUAL"
      case ProgresoLibro => "PROGRESO_LIBRO"
    }

    /** Position of the field in the fixed order. */
    function Rank(): nat {
      match this
      case Edad => 0
      case Nombre => 1
      case LibroActual => 2
      case ProgresoLibro => 3
    }
  }

  /** A field is missing when its value is falsy; a progress of 0 counts as
      missing. */
  predicate IsMissing(user: User, session: Session, f: Field)
    reads session`libroActual, session`progresoLibro
  {
    match f
    case Edad => !TruthyNum(user.edad)
    case Nombre => !TruthyStr(user.nombre)
    case LibroActual => !TruthyStr(session.libroActual)
    case ProgresoLibro => !TruthyNum(session.progresoLibro)
  }

  /** Strictly increasing in the fixed order, hence without duplicates. */
  predicate RankSorted(fs: seq<Field>) {
    forall i, j :: 0 <= i < j < |fs| ==> fs[i].Rank() < fs[j].Rank()
  }

  /** `getMissingFields(user, session, stage)`: nothing unless the stage
      argument is "diagnostico"; then exactly the missing fields, in the
      fixed order. `None` is an omitted argument. */
  function GetMissingFields(user: User, session: Session, stage: Option<string>): (r: seq<Field>)
    reads session`libroActual, session`progresoLibro
    ensures stage != Some("diagnostico") ==> r == []
    ensures stage == Some("diagnostico") ==> forall f :: f in r <==> IsMissing(user, session, f)
    ensures RankSorted(r)
  {
    if stage == Some("diagnostico") then
      (if !TruthyNum(user.edad) then [Edad] else [])
      + (if !TruthyStr(user.nombre) then [Nombre] else [])
      + (if !TruthyStr(session.libroActual) then [LibroActual] else [])
      + (if !TruthyNum(session.progresoLibro) then [ProgresoLibro] else [])
    else []
  }

  /** Membership and the fixed order determine a list of fields: the
      contract of GetMissingFields leaves exactly one possible result. */
  lemma {:induction false} RankSortedUnique(a: seq<Field>, b: seq<Field>)
    requires RankSorted(a) && RankSorted(b)
    requires forall f :: f in a <==> f in b
    ensures a == b
  {
    if a != [] && b != [] {
      assert a[0] in b;
      assert b[0] in a;
      assert a[0].Rank() <= b[0].Rank() by {
        var j :| 0 <= j < |a| && a[j] == b[0];
        assert a[0].Rank() <= a[j].Rank();
      }
      assert b[0].Rank() <= a[0].Rank() by {
        var j :| 0 <= j < |b| && b[j] == a[0];
        assert b[0].Rank() <= b[j].Rank();
      }
      assert a[0] == b[0];
      forall f | f in a[1..] ensures f in b[1..] {
        var j :| 1 <= j < |a| && a[j] == f;
        assert a[0].Rank() < f.Rank();
        assert f in a;
        assert f in b;
        var k :| 0 <= k < |b| && b[k] == f;
        assert b[1..][k - 1] == f;
      }
      forall f | f in b[1..] ensures f in a[1..] {
        var j :| 1 <= j < |b| && b[j] == f;
        assert b[0].Rank() < f.Rank();
        assert f in b;
        assert f in a;
        var k :| 0 <= k < |a| && a[k] == f;
        assert a[1..][k - 1] == f;
      }
      RankSortedUnique(a[1..], b[1..]);
      assert a == [a[0]] + a[1..] && b == [b[0]] + b[1..];
    } else {
      EmptyIffNoMember(a);
      EmptyIffNoMember(b);
    }
  }

  /** A list of fields is empty exactly when no field is in it. */
  lemma EmptyIffNoMember(fs: seq<Field>)
    ensures fs == [] <==> forall f :: f !in fs
  {
    if fs != [] {
      assert fs[0] in fs;
    }
  }

  // ---------------------------------------------------------------- parameter analyser

  /** The prompt sent to the analyser for the child's message. */
  const ANALYSER_HEAD: string := "Analiza el mensaje del niño: \""
  const ANALYSER_TAIL: string :=
    "\". \n"
    + "    Evalúa:\n"
    + "    1. Comprensión (alta/media/baja) - ¿Entiende bien el contenido?\n"
    + "    2. Emoción (alta/media/baja) - ¿Cómo se siente?\n"
    + "    3. Motivación (alta/media/baja) - ¿Está interesado en continuar?\n"
    + "    Responde en formato JSON: { \"comprension\": \"\", \"emocion\": \"\", \"motivacion\": \"\" }"

  function AnalyserPrompt(message: string): string {
    ANALYSER_HEAD + message + ANALYSER_TAIL
  }

  /** Three backticks start at index `i` of `t`. */
  predicate FenceAt(t: string, i: int) {
    0 <= i && i + 2 < |t| && t[i] == '`' && t[i + 1] == '`' && t[i + 2] == '`'
  }

  predicate NoFence(t: string) {
    forall i :: 0 <= i < |t| ==> !FenceAt(t, i)
  }

  /** The four characters spell "json" in any mix of cases. */
  predicate IsJsonTag(t: string) {
    && |t| == 4
    && (t[0] == 'j' || t[0] == 'J') && (t[1] == 's' || t[1] == 'S')
    && (t[2] == 'o' || t[2] == 'O') && (t[3] == 'n' || t[3] == 'N')
  }

  /** `s.replace(/```json|```/gi, '')`: scanning left to right, a fence with
      a "json" tag (any case) or a bare fence is deleted wherever one starts.
      No fence is left behind, not even one formed by the deletions. */
  function StripFences(s: string): (r: string)
    ensures NoFence(r)
    ensures r != [] && r[0] == '`' ==> s != [] && s[0] == '`'
    ensures |r| >= 2 && r[0] == '`' && r[1] == '`' ==> |s| >= 2 && s[0] == '`' && s[1] == '`'
    ensures |r| <= |s|
    decreases |s|
  {
    if StartsWith(s, "```") && |s| >= 7 && IsJsonTag(s[3..7]) then StripFences(s[7..])
    else if StartsWith(s, "```") then StripFences(s[3..])
    else if s == [] then []
    else
      var rest := StripFences(s[1..]);
      assert forall i :: 1 <= i <= |rest| ==> FenceAt([s[0]] + rest, i) == FenceAt(rest, i - 1);
      [s[0]] + rest
  }

  /** Text without fences passes through unchanged. */
  lemma {:induction false} StripFencesKeepsClean(t: string)
    requires NoFence(t)
    ensures StripFences(t) == t
  {
    if t != [] {
      assert !FenceAt(t, 0);
      assert NoFence(t[1..]) by {
        forall i | 0 <= i < |t[1..]| ensures !FenceAt(t[1..], i) {
          assert FenceAt(t[1..], i) ==> FenceAt(t, i + 1);
        }
      }
      StripFencesKeepsClean(t[1..]);
      assert t == [t[0]] + t[1..];
    }
  }

  /** Removing the fences a second time changes nothing. */
  lemma StripFencesIdempotent(s: string)
    ensures StripFences(StripFences(s)) == StripFences(s)
  {
    StripFencesKeepsClean(StripFences(s));
  }

  /** A text that starts with no fence keeps its first character, and no
      fence starts inside a prefix `x` when none starts at its positions in
      `x + y`: then the prefix survives and the rest is stripped on its
      own. */
  lemma {:induction false} StripFencesOfConcat(x: string, y: string)
    requires forall i :: 0 <= i < |x| ==> !FenceAt(x + y, i)
    ensures StripFences(x + y) == x + StripFences(y)
    decreases |x|
  {
    if x != [] {
      var t := x + y;
      assert !FenceAt(t, 0);
      assert !StartsWith(t, "```");
      assert t[1..] == x[1..] + y;
      forall i | 0 <= i < |x[1..]| ensures !FenceAt(x[1..] + y, i) {
        assert FenceAt(x[1..] + y, i) ==> FenceAt(t, i + 1);
      }
      StripFencesOfConcat(x[1..], y);
      assert StripFences(t) == [t[0]] + StripFences(t[1..]);
      assert x == [x[0]] + x[1..];
    } else {
      assert x + y == y;
    }
  }

  /** An opening "```json" fence (any case of the tag) is deleted whole. */
  lemma StripFencesDropsJsonFence(tag: string, t: string)
    requires IsJsonTag(tag)
    ensures StripFences("```" + tag + t) == StripFences(t)
  {
    var s := "```" + tag + t;
    assert StartsWith(s, "```");
    assert s[3..7] == tag;
    assert s[7..] == t;
  }

  /** The text between an opening "```json" fence and a closing "```"
      fence is what is left, provided no fence starts inside it. */
  lemma StripFencesOfWrapped(tag: string, body: string)
    requires IsJsonTag(tag)
    requires forall i :: 0 <= i < |body| ==> !FenceAt(body + "```", i)
    ensures StripFences("```" + tag + body + "```") == body
  {
    var w := body + "```";
    AppendAssoc("```" + tag, body, "```");
    StripFencesDropsJsonFence(tag, w);
    StripFencesOfConcat(body, "```");
    StripFencesOfBareFence([]);
    assert "```" + [] == "```";
  }

  /** A bare fence, one not followed by a "json" tag, is deleted and
      nothing else with it. */
  lemma StripFencesOfBareFence(t: string)
    requires !(|t| >= 4 && IsJsonTag(t[..4]))
    ensures StripFences("```" + t) == StripFences(t)
  {
    var s := "```" + t;
    assert StartsWith(s, "```") by { assert s[..3] == "```"; }
    assert !(|s| >= 7 && IsJsonTag(s[3..7])) by {
      if |s| >= 7 {
        assert s[3..7] == t[..4];
      }
    }
    StripFencesBareStep(s);
    assert s[3..] == t;
  }

  /** One step of the scan at a fence without a "json" tag. */
  lemma StripFencesBareStep(s: string)
    requires StartsWith(s, "```") && !(|s| >= 7 && IsJsonTag(s[3..7]))
    ensures StripFences(s) == StripFences(s[3..])
  {
  }

  /** The cut to the JSON object: when both braces occur, the text from the
      first '{' to the last '}' inclusive (with `substring`'s swap when the
      last '}' comes before the first '{'); otherwise the text itself. */
  function CutToBraces(s: string): (r: string)
    ensures '{' !in s || '}' !in s ==> r == s
    ensures '{' in s && '}' in s && IndexOf(s, '{') < LastIndexOf(s, '}') ==>
      && r == s[IndexOf(s, '{')..LastIndexOf(s, '}') + 1]
      && r[0] == '{' && r[|r| - 1] == '}'
      && '{' !in s[..IndexOf(s, '{')] && '}' !in s[LastIndexOf(s, '}') + 1..]
    ensures '{' in s && '}' in s && LastIndexOf(s, '}') < IndexOf(s, '{') ==>
      r == s[LastIndexOf(s, '}') + 1..IndexOf(s, '{')]
  {
    var first := IndexOf(s, '{');
    var last := LastIndexOf(s, '}');
    if first != -1 && last != -1 then Substring(s, first, last + 1) else s
  }

  /** A part of a text without fences has no fences. */
  lemma NoFenceInfix(t: string, a: nat, b: nat)
    requires NoFence(t) && a <= b <= |t|
    ensures NoFence(t[a..b])
  {
    forall i | 0 <= i < b - a ensures !FenceAt(t[a..b], i) {
      assert FenceAt(t[a..b], i) ==> FenceAt(t, a + i);
    }
  }

  /** Trimming keeps a text free of fences. */
  lemma NoFenceOfTrim(u: string)
    requires NoFence(u)
    ensures NoFence(Trim(u))
  {
    var v := TrimStart(u);
    assert v == u[|u| - |v|..|u|];
    NoFenceInfix(u, |u| - |v|, |u|);
    var t := TrimEnd(v);
    assert t == v[0..|t|];
    NoFenceInfix(v, 0, |t|);
  }

  /** The cut to the braces keeps a text free of fences. */
  lemma NoFenceOfCut(t: string)
    requires NoFence(t)
    ensures NoFence(CutToBraces(t))
  {
    var first := IndexOf(t, '{');
    var last := LastIndexOf(t, '}');
    if first != -1 && last != -1 {
      assert CutToBraces(t) == Substring(t, first, last + 1);
      if first <= last + 1 {
        NoFenceInfix(t, first, last + 1);
      } else {
        NoFenceInfix(t, last + 1, first);
      }
    }
  }

  /** The analyser's reply as it is handed to JSON.parse: no fence is left
      in it. */
  function CleanAnalyserReply(reply: string): (r: string)
    ensures NoFence(r)
  {
    var t := Trim(StripFences(reply));
    NoFenceOfTrim(StripFences(reply));
    NoFenceOfCut(t);
    CutToBraces(t)
  }

  /** The fields of the parsed object; `None` (or `Some("")`) is a falsy or
      missing field. */
  datatype ParsedParams = ParsedParams(comprension: Option<string>, emocion: Option<string>, motivacion: Option<string>)

  /** JSON.parse followed by the property reads; `None` when parsing throws
      (or yields null, whose property read throws). */
  type JsonParse = string -> Option<ParsedParams>

  /** What the analyser concluded about the message: the reply to the
      analyser prompt, cleaned, then parsed. */
  function AnalyserVerdict(message: string, client: Client, parse: JsonParse): Option<ParsedParams> {
    parse(CleanAnalyserReply(Ask(client, AnalyserPrompt(message))))
  }

  /** `updateSessionParams`: each of the three levels takes the parsed value
      when it is truthy and keeps its previous value otherwise; when parsing
      throws, the exception is caught and nothing changes. */
  method UpdateSessionParams(session: Session, message: string, client: Client, parse: JsonParse)
    modifies session`comprension, session`emocion, session`motivacion
    ensures AnalyserVerdict(message, client, parse) == None ==>
      && session.comprension == old(session.comprension)
      && session.emocion == old(session.emocion)
      && session.motivacion == old(session.motivacion)
    ensures AnalyserVerdict(message, client, parse).Some? ==>
      var p := AnalyserVerdict(message, client, parse).value;
      && session.comprension == OrStr(p.comprension, old(session.comprension))
      && session.emocion == OrStr(p.emocion, old(session.emocion))
      && session.motivacion == OrStr(p.motivacion, old(session.motivacion))
  {
    var params := AnalyserVerdict(message, client, parse);
    if params.Some? {
      session.comprension := OrStr(params.value.comprension, session.comprension);
      session.emocion := OrStr(params.value.emocion, session.emocion);
      session.motivacion := OrStr(params.value.motivacion, session.motivacion);
    }
  }

  // ---------------------------------------------------------------- activity type

  /** The deficient parameter an activity should address. */
  datatype ActivityType = Emocion | Motivacion | Comprension

  /** `getActivityType`: a low emotion first, then a low motivation, then a
      low comprehension; null when none is "baja". */
  function GetActivityType(session: Session): (r: Option<ActivityType>)
    reads session
    ensures session.emocion == Some("baja") ==> r == Some(Emocion)
    ensures session.emocion != Some("baja") && session.motivacion == Some("baja") ==> r == Some(Motivacion)
    ensures session.emocion != Some("baja") && session.motivacion != Some("baja") && session.comprension == Some("baja")
            ==> r == Some(Comprension)
    ensures r == None <==>
              (session.emocion != Some("baja") && session.motivacion != Some("baja") && session.comprension != Some("baja"))
  {
    if session.emocion == Some("baja") then Some(Emocion)
    else if session.motivacion == Some("baja") then Some(Motivacion)
    else if session.comprension == Some("baja") then Some(Comprension)
    else None
  }
}
