/** The reading-progress estimate: the client is asked for a percentage
    and the first run of decimal digits in its reply is read as a number. */
module ProgressEstimation {

  import opened Values
  import opened JsString
  import opened GeminiWrapper

  /** The question sent to the client. */
  function EstimationPrompt(libro: string, descripcion: string): string {
    ESTIMATION_HEAD + libro + ESTIMATION_ANSWER + descripcion + ESTIMATION_TAIL
  }

  const ESTIMATION_HEAD: string := "El usuario está leyendo \""
  const ESTIMATION_ANSWER: string := "\". Le pregunté por dónde va y respondió: \""
  const ESTIMATION_TAIL: string :=
    "\". \n"
    + "  Basado en esto, estima aproximadamente el porcentaje de avance en el libro (0 a 100). \n"
    + "  Responde solo con un número entero."

  predicate HasDigit(t: string) {
    exists i :: 0 <= i < |t| && IsDigit(t[i])
  }

  /** Index of the first decimal digit of `t`, or -1 when it has none. */
  function FirstDigit(t: string): (i: int)
    ensures i == -1 <==> !HasDigit(t)
    ensures i != -1 ==> 0 <= i < |t| && IsDigit(t[i]) && forall j :: 0 <= j < i ==> !IsDigit(t[j])
  {
    if t == [] then -1
    else if IsDigit(t[0]) then 0
    else
      var i := FirstDigit(t[1..]);
      assert i == -1 ==> forall j :: 1 <= j < |t| ==> t[1..][j - 1] == t[j];
      if i == -1 then -1 else i + 1
  }

  /** `t.match(/\d+/)`: the first maximal run of decimal digits, `None` when
      there is no digit. The run starts at the first digit and ends before a
      non-digit or at the end of the text. */
  function FirstDigitRun(t: string): (m: Option<string>)
    ensures m == None <==> !HasDigit(t)
    ensures m.Some? ==>
      var i := FirstDigit(t);
      && m.value != [] && AllDigits(m.value)
      && i + |m.value| <= |t| && t[i..i + |m.value|] == m.value
      && (i + |m.value| == |t| || !IsDigit(t[i + |m.value|]))
  {
    var i := FirstDigit(t);
    if i == -1 then None
    else
      var n := DigitPrefix(t[i..], 10);
      assert t[i..i + n] == t[i..][..n];
      Some(t[i..i + n])
  }

  /** The number a reply yields: `parseInt` of the matched run, or null. */
  function ProgressFromText(t: string): (r: Option<int>)
    ensures r == None <==> !HasDigit(t)
    ensures r.Some? ==> r.value >= 0 && r.value == RadixValue(FirstDigitRun(t).value, 10)
  {
    match FirstDigitRun(t)
    case None => None
    case Some(run) =>
      ParseIntOfDigits(run);
      ParseInt(run)
  }

  /** `estimateProgress({libro, descripcion})`: the raw client is called (not
      the fallback wrapper), so a failing call rejects the promise; otherwise
      the number read from the reply, or null when it has no digit. */
  function EstimateProgress(libro: string, descripcion: string, client: Client): (r: Result<Option<int>>)
    ensures client(EstimationPrompt(libro, descripcion)) == Threw ==> r == Err(Rejected)
    ensures client(EstimationPrompt(libro, descripcion)).Answer? ==>
              r.Ok? && r.value == ProgressFromText(client(EstimationPrompt(libro, descripcion)).text)
  {
    match client(EstimationPrompt(libro, descripcion))
    case Threw => Err(Rejected)
    case Answer(text) => Ok(ProgressFromText(text))
  }

  /** The estimate is not clamped to the range the prompt asks for. */
  lemma NotClamped()
    ensures ProgressFromText("150") == Some(150)
  {
    assert AllDigits("150");
    assert IsDigit("150"[0]);
    assert FirstDigit("150") == 0;
    assert DigitPrefix("150", 10) == 3 by {
      DigitPrefixOfDigits("150", 10);
    }
    assert "150"[0..3] == "150";
    assert RadixValue("150", 10) == 150 by {
      assert "150"[..2] == "15" && "15"[..1] == "1" && "1"[..0] == "";
    }
  }

  /** A minus sign before the digits is not part of the match: "-20" gives
      20. */
  lemma SignIgnored()
    ensures ProgressFromText("-20") == Some(20)
  {
    assert !IsDigit("-20"[0]) && IsDigit("-20"[1]);
    assert FirstDigit("-20") == 1;
    assert "-20"[1..] == "20";
    DigitPrefixOfDigits("20", 10);
    assert "-20"[1..3] == "20";
    assert RadixValue("20", 10) == 20 by {
      assert "20"[..1] == "2" && "2"[..0] == "";
    }
  }
}
