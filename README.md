# Decision-Twin core, modelled in Dafny

Decision-Twin asks a user five questions about how they make decisions, then simulates how they would act on a decision they are facing. This project models the three parts of the repository that carry real logic:

- **The two inference edge functions.** They are `analyze-decision-dna`, which turns five answers into a decision profile, and `simulate-decision`, which turns a profile, a scenario and the user's own prediction into a simulated decision. Both share the same plumbing (module `Gateway`):
  - the credential list read from four environment variables;
  - the random choice of a credential not yet tried;
  - the rotation loop against the generative-language service: stop on 2xx, move on after a 429, abort on any other status;
  - the mapping of the loop's outcome to an HTTP response with status 200, 429 or 500 and a fixed message.
  
  Each endpoint (modules `AnalyzeDecisionDna` and `SimulateDecision`) adds its prompt assembly and its `serve` handler.
- **The brace-span extractor** (module `JsonSpan`). It pulls the JSON object out of the model's free-form text with the greedy regex `/\{[\s\S]*\}/`. It is proved equal to the leftmost-longest match of that regex, and to be a contiguous, brace-delimited, idempotent slice.
- **The questionnaire component** (module `Questionnaire`):
  - a class `QuestionnaireFlow` whose fields are the component's state and whose methods are its handlers;
  - the expressions the component derives while rendering: `trim`, `canProceed`, the Cmd+Enter shortcut, the step label and the progress bar.

Supporting modules:
- `Wrappers`: `Option`.
- `Decimal`: how a template literal prints a non-negative number, with its read-back.
- `Template`: template-literal interpolation, with a lemma placing each interpolated value between its literals.

External effects are parameters:
- The upstream service is an oracle `Upstream = (nat, Call) -> Reply`, giving the reply to attempt i: a response with its status and body, or a rejected `fetch` with the runtime's message.
- `JSON.parse` is a partial function `string -> Option<J>`, and `JSON.stringify` is a function `J -> string`.
- The environment is a value `Env` holding four `Option<string>`.
- `Math.random` is a nondeterministic choice of an index into the untried credentials. Every property of `Gateway.Rotate` holds for every choice.

The code does not validate the parsed objects: emotion + logic = 100 is only asked for in the prompt (supabase/functions/analyze-decision-dna/index.ts:82). It has no 402 mapping, and it does not chain the two endpoints.

## Model

| member | source | states |
|---|---|---|
| Decimal.NatToString | supabase/functions/analyze-decision-dna/index.ts:132 | a printed number is a non-empty string of digits and starts with 0 only for the number 0 |
| Decimal.StringToNatInverse | supabase/functions/analyze-decision-dna/index.ts:132 | reading the printed number back gives the number |
| Decimal.NatToStringInjective | src/components/QuestionnaireFlow.tsx:153 | different numbers print differently |
| Template.InterpolatePlacement | supabase/functions/analyze-decision-dna/index.ts:56-66 | in a template literal, interpolated value k stands verbatim right after literal k and right before literal k+1, at the offset the earlier pieces add up to |
| Template.OffsetStep | supabase/functions/simulate-decision/index.ts:58-90 | consecutive interpolated values are separated by exactly the literal between them |
| JsonSpan.ExtractSpan | supabase/functions/analyze-decision-dna/index.ts:151 | a span exists iff some `{` precedes some `}`; when it exists it starts with `{`, ends with `}` and has length at least 2 |
| JsonSpan.ExtractSpanIsRegexMatch | supabase/functions/analyze-decision-dna/index.ts:151 | the result is null exactly when no candidate match exists; otherwise it is the leftmost match, taken at its longest |
| JsonSpan.ExtractSpanPlacement | supabase/functions/simulate-decision/index.ts:156 | the span is a contiguous piece of the text, with no `{` before it and no `}` after it |
| JsonSpan.ExtractSpanIdempotent | supabase/functions/analyze-decision-dna/index.ts:151 | extracting from the extracted span returns it unchanged |
| Gateway.SetValues | supabase/functions/analyze-decision-dna/index.ts:23-25 | the kept values are non-empty, no more than the inputs, and none is kept exactly when every input is unset or empty |
| Gateway.ConfiguredKeys | supabase/functions/analyze-decision-dna/index.ts:17-34 | at most 3 non-empty keys; the list is empty iff all four variables are unset or empty; with no numbered key it is the fallback alone, or empty |
| Gateway.NumberedKeysOnly | supabase/functions/analyze-decision-dna/index.ts:27-31 | once a numbered key is set, the list is the set numbered keys in order 1, 2, 3, and the fallback has no influence |
| Gateway.GetApiKeys | supabase/functions/simulate-decision/index.ts:17-34 | the array built push by push equals the credential list above |
| Gateway.GetRandomKey | supabase/functions/analyze-decision-dna/index.ts:37-39 | a key is returned iff the list is non-empty, and it is a member of the list; an empty list gives `undefined` |
| Gateway.Untried | supabase/functions/analyze-decision-dna/index.ts:94 | a key is in the filtered list iff it is configured and not yet tried |
| Gateway.KeySetSize | supabase/functions/analyze-decision-dna/index.ts:93 | the set of keys is no larger than the list, and exactly as large when the keys are distinct |
| Gateway.SubsetSize | supabase/functions/analyze-decision-dna/index.ts:93 | a subset is no larger than its superset, and equal to it when it has the same size |
| Gateway.ClassifyExhausted | supabase/functions/analyze-decision-dna/index.ts:135-140 | the outcome is "all rate limited" iff every reply was a 429 |
| Gateway.ClassifyDecided | supabase/functions/analyze-decision-dna/index.ts:118-132 | when the first reply that is not a 429 stands at k, a 2xx there is the success, any other status there is the abort, and a rejected `fetch` there ends the loop with its error |
| Gateway.ClassifyNotExhausted | supabase/functions/simulate-decision/index.ts:124-138 | every success or abort is decided by a first reply that is not a 429 |
| Gateway.RateLimitedThen | supabase/functions/analyze-decision-dna/index.ts:123-127 | after only 429s, the next reply alone decides the outcome, and another 429 keeps it "all rate limited" |
| Gateway.ExtendAttemptLog | supabase/functions/analyze-decision-dna/index.ts:94-95 | sending with an untried configured key extends the attempt log and adds exactly that key to the tried set |
| Gateway.Rotate | supabase/functions/analyze-decision-dna/index.ts:89-133 | every attempt sends the prompt with a configured key; no key is used twice; at most as many attempts as keys, and none only when there are no keys; every reply but the last is a 429, so the loop stops at the first 2xx, abort or rejected `fetch`; the outcome is the classification of the replies; all rate limited only after every key was tried |
| Gateway.DistinctGuardsAgree | supabase/functions/simulate-decision/index.ts:99 | for distinct keys, the loop guard on distinct keys equals the source's guard on the list length |
| Gateway.StepAsWritten | supabase/functions/analyze-decision-dna/index.ts:93-95 | the source's loop body runs iff the tried set is smaller than the list; any defined key it picks is configured and untried |
| Gateway.DuplicateKeysSendUndefined | supabase/functions/analyze-decision-dna/index.ts:94 | with two equal keys the second attempt is sent with key `undefined` |
| Gateway.TripleDuplicateKeysNeverExit | supabase/functions/simulate-decision/index.ts:99-101 | with three equal keys the loop state after `k` and `undefined` is a fixed point, so the loop does not end while every reply is a 429 |
| Gateway.DistinctKeysNeverUndefined | supabase/functions/simulate-decision/index.ts:97-101 | with distinct keys the source's pick is always a defined key |
| Gateway.Preflight | supabase/functions/analyze-decision-dna/index.ts:42-44 | status 200, no body, the CORS headers |
| Gateway.UpstreamErrorMessage | supabase/functions/simulate-decision/index.ts:138 | "Gemini API error: " followed by the status in decimal, which reads back as the status |
| Gateway.ParsedContent | supabase/functions/analyze-decision-dna/index.ts:142-160 | a value results iff the reply body was readable, its text is present, a span exists and JSON.parse accepts the span; the value is what JSON.parse returned |
| Gateway.Conclude | supabase/functions/analyze-decision-dna/index.ts:135-172 | JSON headers; status 200, 429 or 500; 429 iff every key was rate limited, with its message; an abort gives 500 "Gemini API error: <status>"; 200 iff success and the content parses, with the parsed value under the field, unchecked; a readable but unparseable body gives 500 "Failed to parse AI response as JSON"; an unreadable body or a rejected `fetch` gives 500 with the runtime's message |
| Gateway.CombinedPrompt | supabase/functions/analyze-decision-dna/index.ts:108 | the text sent is the system prompt, then a blank line, then the user prompt |
| Gateway.TemplateText | supabase/functions/analyze-decision-dna/index.ts:58 | a request field prints as its text, and as "undefined" when missing |
| AnalyzeDecisionDna.NumberLabel | supabase/functions/analyze-decision-dna/index.ts:58-66 | the label before answer k+1 is one digit that reads back as k+1, then ". " |
| AnalyzeDecisionDna.UserPromptEmbedsAnswers | supabase/functions/analyze-decision-dna/index.ts:56-66 | answer k+1 stands verbatim right after its label "k+1. ", and the five answers follow one another in order |
| AnalyzeDecisionDna.Serve | supabase/functions/analyze-decision-dna/index.ts:41-172 | OPTIONS gives the preflight and no calls; a body that cannot be read gives 500 with its message and no calls; no keys gives 500 "No Gemini API keys configured" and no calls; otherwise 1 to as many attempts as keys with the combined prompt, every attempt but the last answered by a 429, 429 only after every configured key was tried, and the response is the outcome's mapping |
| SimulateDecision.UserPromptEmbedsInputs | supabase/functions/simulate-decision/index.ts:58-90 | profile, scenario and prediction each stand verbatim right after their headings, in that order |
| SimulateDecision.ProfileText | supabase/functions/simulate-decision/index.ts:59 | the profile prints as JSON.stringify's text, and a missing profile prints as "undefined" (JSON.stringify(undefined) is undefined) |
| SimulateDecision.Serve | supabase/functions/simulate-decision/index.ts:41-178 | the same four cases as the other endpoint, with the same stop-at-first-non-429 and every-key-before-429 guarantees, the simulation prompt and the field `decisionResult` |
| Questionnaire.InitialResponses | src/components/QuestionnaireFlow.tsx:68-74 | one entry per question Q1..Q5, each with an empty option and an empty elaboration |
| Questionnaire.LeadingWhitespace | src/components/QuestionnaireFlow.tsx:142 | counts exactly the whitespace prefix: all whitespace before it, a non-whitespace character or the end at it |
| Questionnaire.TrailingEnd | src/components/QuestionnaireFlow.tsx:142 | drops exactly the whitespace suffix: all whitespace after it, a non-whitespace character just before it unless nothing is left |
| Questionnaire.Trim | src/components/QuestionnaireFlow.tsx:131 | `trim()` is empty iff the text is all whitespace; otherwise it is the slice of the text between its leading and trailing whitespace, and it neither starts nor ends with whitespace |
| Questionnaire.CanProceed | src/components/QuestionnaireFlow.tsx:141-145 | on the scenario and prediction steps: the text has a non-whitespace character; on a question step: the current option is non-empty |
| Questionnaire.ShortcutFires | src/components/QuestionnaireFlow.tsx:129-139 | the three-branch test fires iff the key is Enter, the meta key is held and the current step may be left |
| Questionnaire.StepLabel | src/components/QuestionnaireFlow.tsx:150-154 | "Your Scenario" at -2, "Your Prediction" at -1, "Question k+1 of 5" at step k >= 0 |
| Questionnaire.StepLabelInjective | src/components/QuestionnaireFlow.tsx:150-154 | different steps carry different labels |
| Questionnaire.ProgressBar | src/components/QuestionnaireFlow.tsx:148-170 | 7 segments; a segment is the current one iff its index is step + 2, and completed iff its index is below that |
| Questionnaire.CountCurrentSingle | src/components/QuestionnaireFlow.tsx:164 | a bar whose only current segment is at index j counts one current segment if j is in range |
| Questionnaire.ExactlyOneCurrent | src/components/QuestionnaireFlow.tsx:160-170 | exactly one segment is highlighted as current |
| Questionnaire.FormatAnswer | src/components/QuestionnaireFlow.tsx:113-115 | the option alone when the elaboration is empty; otherwise the option, " — ", then the untrimmed elaboration |
| Questionnaire.QuestionIdsDistinct | src/components/QuestionnaireFlow.tsx:68-74 | the five question ids differ from one another and from the keys Scenario and UserPrediction, so no entry of the record overwrites another |
| Questionnaire.FormatResponses | src/components/QuestionnaireFlow.tsx:108-116 | the record has exactly the keys Scenario, UserPrediction and Q1..Q5; the two texts are verbatim and each question holds its flattened answer |
| Questionnaire.QuestionnaireFlow.constructor | src/components/QuestionnaireFlow.tsx:65-74 | starts on the scenario step with empty texts and the initial responses |
| Questionnaire.QuestionnaireFlow.SetScenario | src/components/QuestionnaireFlow.tsx:191 | replaces the scenario and nothing else |
| Questionnaire.QuestionnaireFlow.SetUserPrediction | src/components/QuestionnaireFlow.tsx:211 | replaces the prediction and nothing else |
| Questionnaire.QuestionnaireFlow.HandleOptionSelect | src/components/QuestionnaireFlow.tsx:85-93 | the current question's option becomes the chosen label and keeps its elaboration; every other question, the step and the texts are unchanged |
| Questionnaire.QuestionnaireFlow.HandleElaborationChange | src/components/QuestionnaireFlow.tsx:95-103 | the current question's elaboration becomes the new text and keeps its option; every other question, the step and the texts are unchanged |
| Questionnaire.QuestionnaireFlow.HandleNext | src/components/QuestionnaireFlow.tsx:105-121 | on the last question it emits the formatted record and stays; elsewhere it advances one step and emits nothing; the step stays in -2..4 and the answers are unchanged |
| Questionnaire.QuestionnaireFlow.HandleBack | src/components/QuestionnaireFlow.tsx:123-127 | one step back, except that it does nothing on the scenario step; the answers are unchanged |
| Questionnaire.QuestionnaireFlow.HandleKeyDown | src/components/QuestionnaireFlow.tsx:129-139 | Cmd+Enter acts as "next" exactly when the current step may be left, and changes nothing otherwise |

## Left out

- `fetch`, `serve`, `req.json()`, `response.json()` and `response.text()` are HTTP plumbing. The model replaces them with the oracle `Upstream` and with the request values `RequestBody`, `Payload` and `Reply`. A body that cannot be read is `Malformed`/`Unreadable` carrying the runtime's error message. A `fetch` that rejects is the reply `Rejected`.
- Gateway.Conclude: a rejection of `await response.text()` on the abort path (supabase/functions/analyze-decision-dna/index.ts:130, supabase/functions/simulate-decision/index.ts:136) is not modelled. It would give 500 with the runtime's message instead of "Gemini API error: <status>". The abort is modelled as always reading the error text.
- The JSON grammar is not modelled. `JSON.parse` and `JSON.stringify` are foreign library calls and are passed in as functions.
- `Deno.env.get` and `Math.random` are not modelled. The environment is the value `Env`, and the random index is a nondeterministic choice inside `Gateway.Rotate`.
- `console.log`/`console.error`, the never-read `lastError` variable and the `generationConfig` block have no effect on any response.
- The request URL is not modelled. A `Call` records only the credential and the prompt text.
- Values of the wrong kind from JavaScript are not modelled: a non-string answer, or a non-string model text. Request fields are strings or missing, and a missing field prints as "undefined".
- Strings are sequences of Unicode scalar values, not UTF-16 code units. The two agree on every character `trim` strips.
- Questionnaire.QuestionnaireFlow.HandleOptionSelect: the chosen label may be any string, while the rendered buttons only ever pass one of the current question's four labels. The question texts, option labels and descriptions are presentation.
- The `disabled` attributes of the buttons and textareas, and `isProcessing`, only gate rendering. The handlers themselves do not check them.
- `onComplete` is not modelled as a callback. The emitted record is the return value of `HandleNext`/`HandleKeyDown`.
- The other component files, `src/pages/Index.tsx`, and the rendering and CSS of `QuestionnaireFlow.tsx` are presentation and are not part of this model.
- Schema validation, a 402 mapping and a two-stage orchestrator do not exist in the code, so they are not modelled.
- Gateway.Rotate: the loop guard counts distinct keys. With duplicate keys, the source sends a request with key `undefined` and can loop forever; that behaviour is modelled separately by `Gateway.StepAsWritten` (see Findings). For distinct keys the two guards coincide (`Gateway.DistinctGuardsAgree`).

## Findings

| source | as written | input that shows it | evidently intended | confidence | as-written member | corrected member |
|---|---|---|---|---|---|---|
| supabase/functions/analyze-decision-dna/index.ts:93-95 | the loop runs while `triedKeys.size < apiKeys.length`, and picks from `apiKeys.filter(k => !triedKeys.has(k))`; the same code is in supabase/functions/simulate-decision/index.ts:99-101 | GEMINI_API_KEY_1 = GEMINI_API_KEY_2 = "k": after one 429, size 1 < 2 but the filter is empty, so `getRandomKey` returns `undefined` and a request is sent with key `undefined`; with three equal keys the tried set stops at {"k", undefined}, size 2 < 3, and the loop never ends while the replies are 429 | each configured credential is tried at most once and the loop ends after every distinct credential is used | not executed | Gateway.StepAsWritten, Gateway.DuplicateKeysSendUndefined, Gateway.TripleDuplicateKeysNeverExit | Gateway.Rotate, Gateway.DistinctGuardsAgree |
