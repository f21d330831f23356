# Lecty conversation engine — a Dafny model

Lecty is a reading companion for children. For every message a child sends, the
conversation engine:

1. looks up the user and the session document;
2. records the message and asks a text-generation client to rate the child's
   comprehension, emotion and motivation;
3. dispatches on the stored stage (`saludo`, `diagnostico`, `exploracion`,
   `actividad`, `cierre`) to a handler;
4. the handler asks the client for a reply, records it as a system message, may
   fill in the book, the reading progress and its history, the summary or the
   finished flag, and may move the stage on.

Around the engine sit small helpers:
- the fallback wrapper around the client;
- the list of diagnostic fields still missing;
- the cleaning of the analyser's reply;
- the activity catalogue;
- the tone and stage-instruction tables and the prompt builder;
- the book-title validator, the progress estimator, the motivational messages
  and the missing-information question.

The model is split by source file:

| file | module | models |
|---|---|---|
| `values.dfy` | `Values` | optional fields, JavaScript truthiness, `a \|\| b`, the errors a turn can end with |
| `js_string.dfy` | `JsString` | the string built-ins the services use: `trim`, `includes`, `indexOf`, `lastIndexOf`, `substring`, `replace` of one character, `slice(-n)`, `join`, `parseInt` (with its leading white space, sign and `0x` prefix), number formatting, `Math.floor(Math.random() * n)` |
| `gemini_wrapper.dfy` | `GeminiWrapper` | `safeAsk` and its default fallback |
| `session_model.dfy` | `SessionModel` | the session document (a class, since the handlers assign its fields in place), its messages, progress entries, parameter snapshots, the schema's enumerations and defaults |
| `state_service.dfy` | `StateService` | stage default, missing fields, stage setter, parameter analyser, activity type |
| `activity_service.dfy` | `ActivityService` | the activity catalogue, the history string, `getActivityPrompt`, `getProgressContext` |
| `text_normalise.dfy` | `TextNormalise` | `.replace(/\n\s+/g, '\n').trim()` |
| `response_service.dfy` | `ResponseService` | tone, stage instruction, `formatResponse`, `buildPrompt` |
| `field_validation.dfy` | `FieldValidation` | `validateField` |
| `progress_estimation.dfy` | `ProgressEstimation` | `estimateProgress` |
| `motivation.dfy` | `Motivation` | `generateMotivationalMessage` |
| `missing_info.dfy` | `MissingInfo` | `askForMissingInfo` |
| `session_manager.dfy` | `SessionManager` | `saveMessage`, `handleUserMessage` and the five stage handlers |

How the outside world enters the model:
- **The client.** The text-generation client is a parameter `client: string -> ClientReply`. A call yields `Answer(text)` or `Threw`, and `Answer("")` stands for every falsy reply. Within one turn every prompt is different, so a function of the prompt loses nothing.
- **JSON.parse.** It is a parameter `parse: string -> Option<ParsedParams>`, where `None` means that parsing threw.
- **Math.random.** Its draw is a parameter `r` with `0 <= r < 1`, and the index is `floor(r * n)` as in the source.
- **Stores.** The user and session stores are maps.

Conventions:
- A stage is a string, and `""` stands for an unset stage.
- A nullable schema field is an `Option`. `Some("")` and `Some(0)` are falsy, as in JavaScript.
- Interpolating `None` gives `"undefined"`.

Behaviour of the code that the model keeps and states:

- **`conversacion` is a dead end.** The diagnostic handler moves the stage to `conversacion`, which the stage switch has no case for. Every later turn answers "¡Ups! …" and records no system message. `SessionManager.OnlyEarlyStagesReachable` proves that from the greeting the exploration, activity and closing handlers are never reached. `SessionManager.ConversationIsFinal` proves that `conversacion` is never left.
- **Stage names disagree.** `exploracion` and `actividad` have handlers but are outside the schema's stage enumeration. `SessionManager.StageNamesDisagree` states the mismatch. Saving would fail schema validation, and persistence is not modelled.
- **Two copies of the levels.** The analyser writes `COMPRENSION`, `EMOCION` and `MOTIVACION` at the top level of the document; these fields are outside the schema. The tone and the activity type read those fields. The snapshot stored with each system message is `PARAMETROS_ACTUALES`, which nothing ever updates; `SessionManager.HandleUserMessage` proves it unchanged by a turn.
- **A failure text can become the book title.** The book step stores any reply that holds no "NO", so a text that reports a failure is stored as the book too.
  - The client in `src/utils/geminiClient.js` catches its own errors and answers with a text of its own, such as "Ocurrió un error al consultar Gemini.". That text holds no "NO", so it becomes the book (`SessionManager.ClientErrorBecomesBook`).
  - `safeAsk`'s apology is reached only by a client that throws or answers with an empty text, which that client never does. For such a client the apology becomes the book, the progress becomes 0 (`parseInt` of the apology is NaN), and a history entry is added (`SessionManager.FailedCallsRecordApology`).
- **Static questions are unreachable.** `askForMissingInfo` never uses its fixed questions, because `safeAsk` never returns an empty text (`MissingInfo.AskForMissingInfo`).
- **The message in the prompt is collapsed.** `buildPrompt` applies its white-space collapsing to the child's message too. The message therefore appears verbatim only when it holds no line break followed by white space; otherwise it appears collapsed (`ResponseService.BuildPrompt`).
- **No transition checks, no neutral defaults.** `updateStage` stores any stage it is given. The analyser keeps a level's old value when the parsed one is falsy and appends nothing. HISTORIAL_PARAMETROS is never written.

## Model

| member | source | states |
|---|---|---|
| GeminiWrapper.SafeAsk | src/services/geminiWrapper.js:4-12 | a non-empty reply is returned unchanged; an empty reply or an exception gives the fallback; a non-empty fallback gives a non-empty result |
| GeminiWrapper.Ask | src/services/geminiWrapper.js:4-12 | with the default fallback the result is never empty, and is either the fallback or exactly the client's reply |
| GeminiWrapper.FallbackText | src/services/geminiWrapper.js:4 | the default fallback holds no double quote and no capital O, starts with '¡' and ends with '?' |
| GeminiWrapper.ClientErrorText | src/utils/geminiClient.js:82 | the client's own error text holds no capital N, starts with 'O' and ends with '.' |
| Values.OrStr | src/services/stateService.js:44-46 | `a \|\| b` on strings: `a` when truthy, otherwise `b` |
| SessionModel.Session.constructor | src/models/Session.js:17-54 | a new document satisfies the schema: stage 'saludo', all three parameters 'media', not finished, empty logs, required ids set |
| SessionModel.RecentContents | src/services/sessionManagerService.js:100 | exactly the contents of the last min(3, n) messages, oldest first, each equal to the content of the matching message |
| SessionModel.RecentContentsIgnoresOlder | src/services/missingInfoService.js:15 | messages older than the last three do not affect the recent contents |
| JsString.TrimStart | src/services/sessionManagerService.js:74 | exactly the leading white space is removed: the result is a suffix that starts with non-space, and everything before it is white space |
| JsString.TrimEnd | src/services/sessionManagerService.js:74 | exactly the trailing white space is removed: the result is a prefix that ends with non-space, and everything after it is white space |
| JsString.Trim | src/services/sessionManagerService.js:74 | `trim` is TrimEnd after TrimStart: the result has no white space at either end and is no longer than the input |
| JsString.TrimKeepsInner | src/services/responseService.js:19 | trimming a text around a part that starts and ends with non-space leaves that part whole |
| JsString.IndexOf | src/services/stateService.js:37 | -1 exactly when the character is absent; otherwise the first position holding it |
| JsString.LastIndexOf | src/services/stateService.js:38 | -1 exactly when the character is absent; otherwise the last position holding it |
| JsString.Substring | src/services/stateService.js:40 | `substring(a, b)` is the slice between the two bounds, swapped when `b < a` |
| JsString.RemoveAll | src/services/fieldValidationService.js:11 | the character is gone and every other character present before is still present, and no other |
| JsString.RemoveAllOfConcat | src/services/fieldValidationService.js:11 | removal works piece by piece, so the kept characters keep their order and their number |
| JsString.RemoveAllAbsent | src/services/fieldValidationService.js:11 | a text without the character is left unchanged; with RemoveAllOfConcat this fixes the result for every text |
| JsString.ContainsChar | src/services/fieldValidationService.js:11 | `includes` of a one-character text holds exactly when the character occurs |
| JsString.SliceLast | src/services/activityService.js:60 | `slice(-n)`: the last `n` elements, or all of them when there are fewer |
| JsString.ParseIntOfIntToString | src/services/sessionManagerService.js:85 | a number written out is parsed back to itself |
| JsString.Pick | src/services/activityService.js:56 | `Math.floor(r * n)` for `0 <= r < 1` is an index below `n` |
| JsString.PickReachesEveryIndex | src/services/activityService.js:56 | every index below `n` is picked by some draw |
| StateService.GetCurrentStage | src/services/stateService.js:6 | the stored stage, or 'saludo' when unset; never empty |
| StateService.UpdateStage | src/services/stateService.js:19-22 | the stage becomes exactly the requested value, unchecked; nothing else changes |
| StateService.GetMissingFields | src/services/stateService.js:8-17 | empty for any stage argument other than 'diagnostico' (an omitted one included); for 'diagnostico', a field is listed if and only if it is falsy, in the fixed order EDAD, NOMBRE, LIBRO_ACTUAL, PROGRESO_LIBRO, without repetition; a progress of 0 is missing |
| StateService.RankSortedUnique | src/services/stateService.js:11-14 | membership and the fixed order leave only one list, so GetMissingFields's contract fixes its result |
| StateService.StripFences | src/services/stateService.js:35 | removing the json-tagged and bare fences leaves no fence, not even one formed by the removal, and never lengthens the text |
| StateService.StripFencesKeepsClean | src/services/stateService.js:35 | a text without fences is left unchanged |
| StateService.StripFencesIdempotent | src/services/stateService.js:35 | removing the fences twice is the same as once |
| StateService.StripFencesOfConcat | src/services/stateService.js:35 | a prefix in which no fence starts survives whole, and the rest is stripped on its own |
| StateService.StripFencesDropsJsonFence | src/services/stateService.js:35 | an opening "```json" fence, in any case of the tag, is deleted and nothing else with it |
| StateService.StripFencesOfBareFence | src/services/stateService.js:35 | a bare fence, one not followed by a "json" tag, is deleted with nothing after it, and the rest is stripped on its own |
| StateService.StripFencesOfWrapped | src/services/stateService.js:35 | the text between "```json" and a closing "```" is exactly what remains, when no fence starts inside it |
| StateService.CutToBraces | src/services/stateService.js:37-41 | with both braces, the text from the first '{' to the last '}' inclusive (starting with '{' and ending with '}', no '{' before nor '}' after), or the swapped slice when the last '}' precedes the first '{'; otherwise the text itself |
| StateService.NoFenceOfCut | src/services/stateService.js:37-41 | cutting to the braces keeps a text free of fences |
| StateService.CleanAnalyserReply | src/services/stateService.js:35-41 | the cleaned reply handed to JSON.parse holds no fence |
| StateService.UpdateSessionParams | src/services/stateService.js:24-52 | when parsing fails, no level changes; otherwise each of the three levels takes the parsed value when truthy and keeps its old value otherwise; nothing else changes |
| StateService.GetActivityType | src/services/stateService.js:54-59 | low emotion first, then low motivation, then low comprehension; null exactly when none is 'baja' |
| ActivityService.Catalog | src/services/activityService.js:4-54 | each group holds at least two entries, exactly the entries of that group, without repetition; no type selects the general group |
| ActivityService.ChosenActivity | src/services/activityService.js:53-56 | the drawn entry belongs to the selected group (the index is always in bounds) |
| ActivityService.EveryActivityChosen | src/services/activityService.js:56 | every entry of a group is chosen by some draw |
| ActivityService.FormatEntries | src/services/activityService.js:60 | one formatted text `libro (avanceActual%)` per entry, in order |
| ActivityService.HistoryIgnoresOlder | src/services/activityService.js:60 | the history string uses only the last three entries |
| ActivityService.HistoryAfterPush | src/services/activityService.js:60 | with fewer than three entries, a new entry is appended to the string after ", " |
| ActivityService.GetActivityPrompt | src/services/activityService.js:52-62 | the prompt is the template of an entry of the group the session's levels select, applied to the book, the progress and the history string |
| ActivityService.GetProgressContext | src/services/activityService.js:64-69 | empty exactly when the history is empty; otherwise it mentions the last entry's progress with '%' and its book in quotes |
| ActivityService.ProgressContextOfLast | src/services/activityService.js:67-68 | only the last entry of the history matters |
| ResponseService.GetTone | src/services/responseService.js:22-26 | 'empático y motivador' for low emotion, else 'entusiasta y alentador' for low motivation, else 'amigable y positivo' |
| ResponseService.ToneMatchesActivityType | src/services/responseService.js:22-26 | the tone and the activity type follow the same priority: empathetic exactly with the emotion group, encouraging exactly with the motivation group |
| ResponseService.GetStageInstruction | src/services/responseService.js:28-35 | fixed texts for diagnostico, exploracion and actividad; empty exactly for every other stage |
| ResponseService.FormatResponse | src/services/responseService.js:37-39 | the text comes back unchanged, whatever the user and the options |
| ResponseService.InterestsText | src/services/responseService.js:11 | the interests joined by ", " when that join is not empty, otherwise 'no especificados'; never empty |
| ResponseService.InterestsDefaultCases | src/services/responseService.js:11 | the default is shown exactly for no list, an empty list or a list holding one empty interest; two or more interests always show |
| ResponseService.PromptDefaults | src/services/responseService.js:7-11 | each interpolated value is the field when truthy and its default ('X', 'niño', 'un libro', 0, 'fomentar la lectura', 'no especificados') otherwise |
| ResponseService.NormalisedTemplate | src/services/responseService.js:6-19 | the normalised template keeps its tone line and the quoted message (collapsed) |
| ResponseService.BuildPrompt | src/services/responseService.js:3-20 | the prompt has no line break followed by white space and no white space at either end; it holds the session's tone line and the last message between double quotes, verbatim when the message has no line-break run |
| ResponseService.BuildPromptAsWritten | src/services/responseService.js:2-17 | as written, `this` is the original exports object, which has no members, so the call of `this.getTone` throws a TypeError |
| ResponseService.BuildPromptWithThis | src/services/responseService.js:16-17 | with `this` holding given members: a missing getTone, then a missing getStageInstruction, throws; with both the result is exactly BuildPrompt's prompt |
| TextNormalise.CollapseNewlineSpace | src/services/responseService.js:19 | `replace(/\n\s+/g, '\n')`: never lengthens the text and keeps its first character |
| TextNormalise.CollapseIsClean | src/services/responseService.js:19 | no line break followed by white space survives the collapsing |
| TextNormalise.CollapseKeepsClean | src/services/responseService.js:19 | a text without such runs is left unchanged (so collapsing is idempotent) |
| TextNormalise.CollapseKeepsLast | src/services/responseService.js:19 | a last character that is not white space stays last |
| TextNormalise.CollapseOfConcat | src/services/responseService.js:19 | collapsing works piecewise across a boundary that no white-space run crosses |
| TextNormalise.Normalise | src/services/responseService.js:19 | after collapsing and trimming, the text has no line-break run and no white space at either end |
| TextNormalise.NormaliseKeepsPart | src/services/responseService.js:18-19 | a part starting and ending with non-space comes through whole (collapsed) |
| TextNormalise.NormaliseKeepsTwoParts | src/services/responseService.js:16-19 | two such parts both come through |
| FieldValidation.ValidateField | src/services/fieldValidationService.js:5-13 | only LIBRO_ACTUAL gives a value; it is "NO" or starts with "SI:", starts with "SI:" if and only if the reply holds a double quote, and is then "SI:" plus the reply without any double quote |
| FieldValidation.FailedCallMeansNo | src/services/fieldValidationService.js:10-11 | a failed or empty client call gives "NO" |
| ProgressEstimation.FirstDigit | src/services/progressEstimationService.js:9 | -1 exactly when there is no digit; otherwise the position of the first digit |
| ProgressEstimation.FirstDigitRun | src/services/progressEstimationService.js:9 | `match(/\d+/)`: none exactly when there is no digit; otherwise the maximal digit run starting at the first digit |
| ProgressEstimation.ProgressFromText | src/services/progressEstimationService.js:9-10 | null if and only if there is no digit; otherwise the non-negative value of the first digit run |
| ProgressEstimation.EstimateProgress | src/services/progressEstimationService.js:3-11 | the raw client is called: an exception rejects; otherwise the value read from the reply |
| ProgressEstimation.NotClamped | src/services/progressEstimationService.js:4-10 | a reply "150" gives 150, outside the range the prompt asks for |
| ProgressEstimation.SignIgnored | src/services/progressEstimationService.js:9 | a reply "-20" gives 20 |
| Motivation.BaseMessages | src/services/motivationService.js:5-19 | the sad or happy list for those keys, the neutral list for every other key; two non-empty texts each |
| Motivation.GenerateMotivationalMessage | src/services/motivationService.js:4-22 | the result is one of the selected list's texts and never empty |
| Motivation.EveryMessageDrawn | src/services/motivationService.js:20 | every text of the selected list is drawn by some draw |
| MissingInfo.StaticPrompt | src/services/missingInfoService.js:6-11 | a fixed question exactly for the four field names, never empty |
| MissingInfo.PromptIgnoresOlder | src/services/missingInfoService.js:13-17 | the request depends only on the last three messages |
| MissingInfo.OrElse | src/services/missingInfoService.js:19 | `a \|\| b`: `a` when non-empty, otherwise `b` |
| MissingInfo.AskForMissingInfo | src/services/missingInfoService.js:5-20 | the result is always the wrapped reply (the client's text or the fallback); the fixed question is never used |
| SessionManager.SaveMessage | src/services/sessionManagerService.js:9-18 | exactly one message is appended, with the given content and sender, and the given emotion or else the session's EMOCION |
| SessionManager.NextStage | src/services/sessionManagerService.js:36-48 | the stage after a handled turn: saludo→diagnostico, diagnostico→diagnostico while a field is missing and →conversacion otherwise, exploracion→actividad, actividad→cierre, cierre stays, unhandled stages stay |
| SessionManager.OnlyEarlyStagesReachable | src/services/sessionManagerService.js:36-48 | from saludo, diagnostico or conversacion, no sequence of turns reaches another stage |
| SessionManager.ConversationIsFinal | src/services/sessionManagerService.js:123 | conversacion is never left |
| SessionManager.NextStageKeepsSchema | src/services/sessionManagerService.js:36-48 | from a stage of the schema's enumeration, a turn leads to a stage of it |
| SessionManager.StageNamesDisagree | src/services/sessionManagerService.js:123 | the diagnostic handler's target has no case, and exploracion and actividad are outside the schema enumeration |
| SessionManager.ProgressValue | src/services/sessionManagerService.js:85 | `parseInt(reply) \|\| 0`: NaN gives 0, a number gives itself |
| SessionManager.ProgressValueOfNumber | src/services/sessionManagerService.js:85 | a reply that is a written number gives that number |
| SessionManager.ExtractBook | src/services/sessionManagerService.js:69-76 | a set book or an empty message keeps the book; a reply holding "NO" keeps it; otherwise the book is the trimmed reply |
| SessionManager.Extract | src/services/sessionManagerService.js:69-92 | the book is ExtractBook's; the progress step runs only with a truthy book, a falsy progress and a message; when it runs, a reply holding "NO" changes nothing, and any other reply sets the progress to `parseInt(reply) \|\| 0` and appends exactly one entry {book, 0, progress}; the history grows exactly when the reply holds no "NO" |
| SessionManager.ApologyHasNoRefusal | src/services/sessionManagerService.js:73 | the wrapper's apology holds no "NO" |
| SessionManager.ApologyIsNoNumber | src/services/sessionManagerService.js:85 | the apology reads as progress 0 |
| SessionManager.FailedBookCallGivesApology | src/services/sessionManagerService.js:69-76 | for a client that throws on the book call, the apology becomes the book |
| SessionManager.FailedCallsRecordApology | src/services/sessionManagerService.js:69-92 | for a client that throws on both calls, the book is the apology, the progress 0, and one history entry records them |
| SessionManager.ClientErrorBecomesBook | src/services/sessionManagerService.js:69-76 | when the client answers the book call with its own error text, that text becomes the book |
| SessionManager.ExtractBookAndProgress | src/services/sessionManagerService.js:67-92 | the in-place book and progress steps leave the session's book, progress and history as Extract gives them, with its "NO" tests and its progress value |
| SessionManager.HandleGreeting | src/services/sessionManagerService.js:52-65 | the reply is the greeting, appended once as a system message; the stage becomes diagnostico |
| SessionManager.HandleDiagnostic | src/services/sessionManagerService.js:67-138 | after the extraction: while a field is missing, exactly one question about the first missing field, from the last three contents, with the stage unchanged; otherwise the stage becomes conversacion and the transition message, from the last history entry, is recorded; the book, progress and history are as Extract gives them |
| SessionManager.AskOrConclude | src/services/sessionManagerService.js:94-137 | the question or the transition branch, as above |
| SessionManager.AskMissingField | src/services/sessionManagerService.js:96-119 | one question, recorded as a system message; the stage is not touched |
| SessionManager.MoveToConversation | src/services/sessionManagerService.js:122-137 | the stage becomes conversacion and the transition message is recorded |
| SessionManager.HandleDiagnosticAsWritten | src/services/sessionManagerService.js:94-124 | as written, the missing list is always empty, the stage always becomes conversacion, and the progress context then throws a TypeError with no message recorded |
| SessionManager.HandleExploration | src/services/sessionManagerService.js:140-155 | one system message; the stage becomes actividad |
| SessionManager.HandleActivity | src/services/sessionManagerService.js:157-172 | one system message; the stage becomes cierre |
| SessionManager.HandleClosing | src/services/sessionManagerService.js:174-192 | the summary is (over)written and the session finished without any guard, one closing message is appended, and the stage stays |
| SessionManager.Dispatch | src/services/sessionManagerService.js:36-49 | a handled stage appends exactly one system message whose content is the reply and moves along NextStage; any other stage answers "¡Ups! …" and appends nothing; only a diagnostic turn may change the book, the progress and its history, and only a closing turn the summary and the finished flag |
| SessionManager.DiagnosticStep | src/services/sessionManagerService.js:39-40 | the diagnostic case of the switch: exactly one system message is appended and the stage moves along NextStage, with only the diagnostic fields, the log and the stage in its frame |
| SessionManager.RecordAndAnalyse | src/services/sessionManagerService.js:30-33 | the child's message is appended first, with the session's emotion |
| SessionManager.Turn | src/services/sessionManagerService.js:29-49 | the child's message and then, for a handled stage, exactly one system message are appended; the stage follows NextStage; the parameter snapshot is untouched; a document that satisfies the schema still does; only a diagnostic turn may change the book, the progress and its history, and only a closing turn the summary and the finished flag; the parameter history, the last activity and the objective are outside its frame |
| SessionManager.HandleUserMessage | src/services/sessionManagerService.js:21-50 | a missing user or session fails with "Usuario o sesión no encontrada" and changes nothing; otherwise one turn as above, with the analyser called under its exported name, the schema still satisfied, and the same stage-gated fields and frame as Turn |
| SessionManager.HandleUserMessageAsWritten | src/services/sessionManagerService.js:21-33 | as written, every turn with a found user and session ends in a TypeError after only the child's message was added; the message log is the only field it may change |

## Left out

- Persistence is not modelled: `session.save()`, the schema validation it performs, and what survives a reload. Fields outside the schema, such as the three top-level levels and OBJETIVO_SESION, are kept in memory for the whole model.
- Message ids (IDM), timestamps (FECHA_HORA, the `fecha` of history entries) and the random part of the ids are outside the model.
- The stores are maps from id to record, and `Promise.all` of the two lookups is a plain lookup. Concurrent turns on one session are not modelled.
- Table lookups by a key that names an `Object.prototype` member (`messages['constructor']`, `prompts['toString']`) are not modelled: a key outside the table is treated as missing.
- `JSON.parse` is a parameter. A truthy value of a non-string type in the analyser's object (a number, an object) is outside the model, as is a client reply that is not a string.
- `parseInt` is modelled on unbounded integers; the loss of precision beyond 2^53 is not modelled.
- `src/utils/geminiClient.js` (apart from its error text, `GeminiWrapper.CLIENT_ERROR`), the HTTP controllers and routes, `src/services/analysisService.js` and the behaviour of `src/models/User.js` are not part of this model.
- The client is a parameter, so the model also covers clients that throw or answer with an empty text. The client in `src/utils/geminiClient.js` does neither: it catches its errors and answers with its own texts. In the program as it is, `safeAsk`'s fallback is therefore never used, and the lemmas about the apology describe other clients.
- HISTORIAL_PARAMETROS and ULTIMA_ACTIVIDAD are fields of the session that no modelled code writes; they lie outside the frame of `SessionManager.HandleUserMessage`.
- SessionManager.RecordAndAnalyse: states the recorded message only. The analyser's effect on the three levels is the contract of StateService.UpdateSessionParams, which it calls; it is left out here to keep the turn's proof small.
- SessionManager.Turn: states which stage may change which fields, but not the new values of the three levels (UpdateSessionParams), of the book, progress and history (HandleDiagnostic) or of the summary and finished flag (HandleClosing).
- SessionManager.Dispatch: states which stage may change which fields, but not the new values that the diagnostic and closing handlers state.
- SessionManager.HandleUserMessage: the same as Turn for a found user and session.

## Findings

| source | as written | input that shows it | evidently intended | confidence | as-written member | corrected member |
|---|---|---|---|---|---|---|
| src/services/sessionManagerService.js:33 | calls `stateService.updateSessionParameters`, which the state service does not export (it exports `updateSessionParams`) | any message for a found user and session | call `updateSessionParams` | not executed | SessionManager.HandleUserMessageAsWritten | SessionManager.HandleUserMessage |
| src/services/sessionManagerService.js:94 | `getMissingFields(user, session)` without the stage argument, which yields an empty list | a diagnostic turn for a user without EDAD: no question is asked and the stage moves to conversacion | pass 'diagnostico' so that the first missing field is asked for | not executed | SessionManager.HandleDiagnosticAsWritten | SessionManager.HandleDiagnostic |
| src/services/sessionManagerService.js:124 | `getProgressContext(user.US_ID, …)` hands a string to a function that reads `HISTORIAL_AVANCE.length` of its argument | any diagnostic turn (by the row above, every one reaches this line): a TypeError reading 'length' of undefined | pass the session | not executed | SessionManager.HandleDiagnosticAsWritten | SessionManager.HandleDiagnostic |
| src/services/responseService.js:16-17 | `this.getTone` and `this.getStageInstruction` inside a module-level arrow function, where `this` is the module's original, empty exports object | any call of buildPrompt: "this.getTone is not a function" | use the module's own getTone and getStageInstruction | not executed | ResponseService.BuildPromptAsWritten | ResponseService.BuildPrompt |
