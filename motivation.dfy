/** The canned motivational messages: two per emotion key, one of them
    drawn at random and passed through formatResponse. */
module Motivation {

  import opened Values
  import opened JsString
  import opened SessionModel
  import opened ResponseService

  const SAD: seq<string> := [
    "Cada página que lees te hace más fuerte",
    "Los buenos momentos en el libro están por venir"]

  const NEUTRAL: seq<string> := [
    "Vas muy bien con tu lectura",
    "¡Sigue explorando la historia!"]

  const HAPPY: seq<string> := [
    "¡Se nota que te encanta este libro!",
    "Tu entusiasmo es contagioso"]

  /** `messages[emotion] || messages.neutral`: the list of the emotion key,
      the neutral list for any other key. Every list has two non-empty
      texts. */
  function BaseMessages(emotion: string): (r: seq<string>)
    ensures emotion == "sad" ==> r == SAD
    ensures emotion == "happy" ==> r == HAPPY
    ensures emotion !in {"sad", "happy"} ==> r == NEUTRAL
    ensures |r| == 2 && forall m :: m in r ==> m != ""
  {
    match emotion
    case "sad" => SAD
    case "happy" => HAPPY
    case _ => NEUTRAL
  }

  /** `generateMotivationalMessage(emotion, progress, user)` for the draw `r`
      of Math.random: one of the texts of the selected list, never empty,
      unchanged by formatResponse. The progress is not used. */
  function GenerateMotivationalMessage(emotion: string, progress: Option<int>, user: User, r: real): (m: string)
    requires 0.0 <= r < 1.0
    ensures m in BaseMessages(emotion)
    ensures m != ""
  {
    var base := BaseMessages(emotion);
    FormatResponse(user, base[Pick(r, |base|)], FormatOptions(None, Some(false)))
  }

  /** Every text of the selected list can be drawn. */
  lemma EveryMessageDrawn(emotion: string, progress: Option<int>, user: User, m: string)
    requires m in BaseMessages(emotion)
    ensures exists r :: 0.0 <= r < 1.0 && GenerateMotivationalMessage(emotion, progress, user, r) == m
  {
    var base := BaseMessages(emotion);
    var i :| 0 <= i < |base| && base[i] == m;
    PickReachesEveryIndex(|base|, i);
    var r :| 0.0 <= r < 1.0 && Pick(r, |base|) == i;
    assert GenerateMotivationalMessage(emotion, progress, user, r) == m;
  }
}
