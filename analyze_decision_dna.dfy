/** The analyze-decision-dna edge function: five questionnaire answers are put
    into a profiling prompt, sent with credential rotation, and the model's JSON
    is returned as `{ decisionDNA }`. */
module AnalyzeDecisionDna {
  import opened Wrappers
  import opened Decimal
  import opened Template
  import opened Gateway

  /** What `await req.json()` and the destructuring `{ Q1, ..., Q5 }` produce:
      they throw (the runtime's message), or give the five fields, each possibly
      missing. */
  datatype RequestBody =
    | Malformed(message: string)
    | Answers(q1: Option<string>, q2: Option<string>, q3: Option<string>, q4: Option<string>, q5: Option<string>)

  datatype Request = Request(httpMethod: string, body: RequestBody)

  const DnaField: string := "decisionDNA"

  const SystemPrompt: string :=
    "You are a decision-profiling engine.\n\n" +
    "Your task is to infer how a human tends to make decisions based on short scenario responses.\n\n" +
    "Do not give advice, diagnoses, or moral judgments.\n\n" +
    "Output must be neutral, analytical, and structured."

  const PromptHead: string := "User responses to decision scenarios:\n\n"

  const PromptTail: string :=
    "\n\n" +
    "Infer the user's Decision DNA and return ONLY the following JSON structure:\n\n" +
    "{\n" +
    "  \"risk_tolerance\": \"low | medium | high\",\n" +
    "  \"emotion_logic_ratio\": {\n" +
    "    \"emotion\": 0-100,\n" +
    "    \"logic\": 0-100\n" +
    "  },\n" +
    "  \"authority_response\": \"compliant | resistant | balanced\",\n" +
    "  \"time_bias\": \"short_term | balanced | long_term\",\n" +
    "  \"regret_sensitivity\": \"low | medium | high\",\n" +
    "  \"summary\": \"A concise, neutral 2-sentence description of the user's decision style.\"\n" +
    "}\n\n" +
    "Ensure emotion + logic equals 100.\n\n" +
    "Do not include any explanation or extra text."

  /** The literal before answer k + 1: the heading or a blank line, then the
      label "k+1. ". */
  function NumberedLiteral(k: nat): string
    requires k < 9
  {
    LabelPrefix(k) + NumberLabel(k)
  }

  /** The label "k+1. " of answer k + 1: one digit that reads back as k + 1, then ". ". */
  function NumberLabel(k: nat): (r: string)
    requires k < 9
    ensures |r| == 3 && r[1..] == ". " && AllDigits(r[..1]) && StringToNat(r[..1]) == k + 1
  {
    assert (NatToString(k + 1) + ". ")[..1] == NatToString(k + 1);
    StringToNatInverse(k + 1);
    NatToString(k + 1) + ". "
  }

  /** What precedes the label of answer k + 1: the heading for the first, a blank line otherwise. */
  function LabelPrefix(k: nat): string {
    if k == 0 then PromptHead else "\n\n"
  }

  /** The literal pieces of the user prompt's template around ${Q1} .. ${Q5}. */
  const DnaLiterals: seq<string> :=
    [NumberedLiteral(0), NumberedLiteral(1), NumberedLiteral(2), NumberedLiteral(3), NumberedLiteral(4), PromptTail]

  /** The user prompt: the heading, the answers numbered 1 to 5 and separated by
      blank lines, then the JSON template. */
  function UserPrompt(answers: seq<string>): string
    requires |answers| == 5
  {
    Interpolate(DnaLiterals, answers)
  }

  /** Answer k + 1 stands verbatim in the prompt right after its label "k+1. ",
      and the answers follow one another in order 1 to 5. */
  lemma UserPromptEmbedsAnswers(answers: seq<string>, k: nat)
    requires |answers| == 5 && k < 5
    ensures var p, a := UserPrompt(answers), Offset(DnaLiterals, answers, k);
            && 3 <= a && a + |answers[k]| <= |p|
            && p[a - 3..a] == NumberLabel(k)
            && p[a..a + |answers[k]|] == answers[k]
    ensures k < 4 ==> Offset(DnaLiterals, answers, k) + |answers[k]| < Offset(DnaLiterals, answers, k + 1)
  {
    LiteralBeforeAnswer(k);
    InterpolateAfterSuffix(DnaLiterals, answers, k, LabelPrefix(k), NumberLabel(k));
    if k < 4 {
      OffsetStep(DnaLiterals, answers, k);
      LiteralBeforeAnswer(k + 1);
    }
  }

  lemma LiteralBeforeAnswer(k: nat)
    requires k < 5
    ensures DnaLiterals[k] == LabelPrefix(k) + NumberLabel(k)
  {
    assert DnaLiterals[k] == NumberedLiteral(k);
  }

  function PromptFor(body: RequestBody): string
    requires body.Answers?
  {
    UserPrompt([TemplateText(body.q1), TemplateText(body.q2), TemplateText(body.q3),
                TemplateText(body.q4), TemplateText(body.q5)])
  }

  /** The `serve` handler. `upstream` stands for the `fetch` calls and `parse`
      for JSON.parse; the method returns the response and the calls made. */
  method Serve<J>(req: Request, env: Env, upstream: Upstream, parse: string -> Option<J>)
    returns (resp: HttpResponse<J>, calls: seq<Call>)
    ensures req.httpMethod == "OPTIONS" ==> resp == Preflight() && calls == []
    ensures req.httpMethod != "OPTIONS" && req.body.Malformed? ==>
      resp == JsonError(500, req.body.message) && calls == []
    ensures req.httpMethod != "OPTIONS" && req.body.Answers? && ConfiguredKeys(env) == [] ==>
      resp == JsonError(500, NoKeysMessage) && calls == []
    ensures req.httpMethod != "OPTIONS" && req.body.Answers? && ConfiguredKeys(env) != [] ==>
      && 1 <= |calls| <= |ConfiguredKeys(env)|
      && IsAttemptLog(ConfiguredKeys(env), CombinedPrompt(SystemPrompt, PromptFor(req.body)), upstream,
                      calls, RepliesTo(calls, upstream))
      && AllRateLimited(RepliesTo(calls, upstream)[..|calls| - 1])
      && (Classify(RepliesTo(calls, upstream)) == Exhausted ==> KeysOf(calls) == KeySet(ConfiguredKeys(env)))
      && resp == Conclude(DnaField, Classify(RepliesTo(calls, upstream)), parse)
  {
    calls := [];
    if req.httpMethod == "OPTIONS" {
      resp := Preflight();
      return;
    }
    if req.body.Malformed? {
      resp := JsonError(500, req.body.message);
      return;
    }
    var apiKeys := GetApiKeys(env);
    if |apiKeys| == 0 {
      resp := JsonError(500, NoKeysMessage);
      return;
    }
    var userPrompt := PromptFor(req.body);
    var replies, outcome;
    calls, replies, outcome := Rotate(apiKeys, CombinedPrompt(SystemPrompt, userPrompt), upstream);
    assert replies == RepliesTo(calls, upstream);
    resp := Conclude(DnaField, outcome, parse);
  }
}
