/** The simulate-decision edge function: a Decision DNA profile, a scenario and
    the user's own prediction are put into a simulation prompt, sent with
    credential rotation, and the model's JSON is returned as `{ decisionResult }`. */
module SimulateDecision {
  import opened Wrappers
  import opened Template
  import opened Gateway

  /** What `await req.json()` and the destructuring `{ decisionDNA, scenario,
      userPrediction }` produce: they throw (the runtime's message), or give the
      three fields, each possibly missing. `J` is the type of JSON values. */
  datatype RequestBody<J> =
    | Malformed(message: string)
    | Inputs(decisionDNA: Option<J>, scenario: Option<string>, userPrediction: Option<string>)

  datatype Request<J> = Request(httpMethod: string, body: RequestBody<J>)

  const ResultField: string := "decisionResult"

  const SystemPrompt: string :=
    "You are a decision simulation engine.\n\n" +
    "You predict how a human is likely to act based strictly on their Decision DNA.\n\n" +
    "This is a prediction, not advice.\n\n" +
    "Remain neutral, transparent, and analytical."

  const PromptTail: string :=
    "\n\n" +
    "Simulate the user's likely decision and return ONLY the following JSON:\n\n" +
    "{\n" +
    "  \"likely_choice\": \"One-line description of the predicted decision\",\n" +
    "  \"decision_confidence\": 0-100,\n" +
    "  \"reasoning_steps\": [\n" +
    "    \"Step-by-step explanation tied to the Decision DNA\"\n" +
    "  ],\n" +
    "  \"hidden_biases\": [\n" +
    "    \"Cognitive or emotional biases influencing this decision\"\n" +
    "  ],\n" +
    "  \"ignored_alternative\": \"A realistic alternative the user is likely to avoid\",\n" +
    "  \"ignored_alternative_reason\": \"Why this alternative is usually ignored\",\n" +
    "  \"possible_regret\": \"One or two sentences describing a potential future regret\"\n" +
    "}\n\n" +
    "Do not give advice.\n\n" +
    "Do not recommend actions.\n\n" +
    "Do not add extra text."

  /** The literal pieces around the profile, the scenario and the prediction. */
  const SimulationLiterals: seq<string> :=
    ["Decision DNA:\n\n", "\n\nScenario:\n\n", "\n\nUser believes they would do:\n\n", PromptTail]

  /** The user prompt for the profile text, the scenario and the prediction. */
  function UserPrompt(profile: string, scenario: string, prediction: string): string {
    Interpolate(SimulationLiterals, [profile, scenario, prediction])
  }

  /** Input k (profile, scenario, prediction) stands verbatim in the prompt
      right after its heading ("Decision DNA:", "Scenario:", "User believes they
      would do:"), and the three follow one another in that order. */
  lemma UserPromptEmbedsInputs(profile: string, scenario: string, prediction: string, k: nat)
    requires k < 3
    ensures var p, vals := UserPrompt(profile, scenario, prediction), [profile, scenario, prediction];
            var a := Offset(SimulationLiterals, vals, k);
            && |SimulationLiterals[k]| <= a && a + |vals[k]| <= |p|
            && p[a - |SimulationLiterals[k]|..a] == SimulationLiterals[k]
            && p[a..a + |vals[k]|] == vals[k]
    ensures var vals := [profile, scenario, prediction];
            k < 2 ==> Offset(SimulationLiterals, vals, k) + |vals[k]| < Offset(SimulationLiterals, vals, k + 1)
  {
    var vals := [profile, scenario, prediction];
    InterpolatePlacement(SimulationLiterals, vals, k);
    if k < 2 {
      OffsetStep(SimulationLiterals, vals, k);
    }
  }

  /** `JSON.stringify(decisionDNA, null, 2)` in the template: `stringify` stands
      for JSON.stringify, and a missing profile prints as "undefined". */
  function ProfileText<J>(dna: Option<J>, stringify: J -> string): (t: string)
    ensures dna.Some? ==> t == stringify(dna.value)
    ensures dna.None? ==> t == "undefined"
  {
    match dna
    case Some(v) => stringify(v)
    case None => "undefined"
  }

  function PromptFor<J>(body: RequestBody<J>, stringify: J -> string): string
    requires body.Inputs?
  {
    UserPrompt(ProfileText(body.decisionDNA, stringify), TemplateText(body.scenario), TemplateText(body.userPrediction))
  }

  /** The `serve` handler. `upstream` stands for the `fetch` calls, `parse` for
      JSON.parse and `stringify` for JSON.stringify; the method returns the
      response and the calls made. */
  method Serve<J>(req: Request<J>, env: Env, upstream: Upstream, parse: string -> Option<J>, stringify: J -> string)
    returns (resp: HttpResponse<J>, calls: seq<Call>)
    ensures req.httpMethod == "OPTIONS" ==> resp == Preflight() && calls == []
    ensures req.httpMethod != "OPTIONS" && req.body.Malformed? ==>
      resp == JsonError(500, req.body.message) && calls == []
    ensures req.httpMethod != "OPTIONS" && req.body.Inputs? && ConfiguredKeys(env) == [] ==>
      resp == JsonError(500, NoKeysMessage) && calls == []
    ensures req.httpMethod != "OPTIONS" && req.body.Inputs? && ConfiguredKeys(env) != [] ==>
      && 1 <= |calls| <= |ConfiguredKeys(env)|
      && IsAttemptLog(ConfiguredKeys(env), CombinedPrompt(SystemPrompt, PromptFor(req.body, stringify)), upstream,
                      calls, RepliesTo(calls, upstream))
      && AllRateLimited(RepliesTo(calls, upstream)[..|calls| - 1])
      && (Classify(RepliesTo(calls, upstream)) == Exhausted ==> KeysOf(calls) == KeySet(ConfiguredKeys(env)))
      && resp == Conclude(ResultField, Classify(RepliesTo(calls, upstream)), parse)
  {
    calls := [];
    if req.httpMethod == "OPTIONS" {
      resp := Preflight();
      return;
    }
    if req.body.Malformed? {
      resp := JsonError(500, req.body.message);
      return;
    }
    var apiKeys := GetApiKeys(env);
    if |apiKeys| == 0 {
      resp := JsonError(500, NoKeysMessage);
      return;
    }
    var userPrompt := PromptFor(req.body, stringify);
    var replies, outcome;
    calls, replies, outcome := Rotate(apiKeys, CombinedPrompt(SystemPrompt, userPrompt), upstream);
    assert replies == RepliesTo(calls, upstream);
    resp := Conclude(ResultField, outcome, parse);
  }
}
