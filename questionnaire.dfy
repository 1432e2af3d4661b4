/** The QuestionnaireFlow component: a scenario step (-2), a prediction step
    (-1) and five multiple-choice questions (0 .. 4), each answered by an option
    and an optional elaboration. On the last question, "next" hands the
    answers, flattened to strings, to the caller. */
module Questionnaire {
  import opened Wrappers
  import opened Decimal

  datatype Answer = Answer(option: string, elaboration: string)

  /** The ids of `questions`, in order. */
  const QuestionIds: seq<string> := ["Q1", "Q2", "Q3", "Q4", "Q5"]
  const QuestionKeys: set<string> := set q | q in QuestionIds

  const ScenarioStep: int := -2
  const PredictionStep: int := -1
  /** `questions.length - 1` */
  const LastQuestionStep: int := |QuestionIds| - 1
  /** `questions.length + 2`: one scenario step, one prediction step, five questions. */
  const TotalSteps: nat := |QuestionIds| + 2

  predicate IsStep(step: int) {
    ScenarioStep <= step <= LastQuestionStep
  }

  predicate WellKeyed(responses: map<string, Answer>) {
    responses.Keys == QuestionKeys
  }

  function InitialResponses(): (r: map<string, Answer>)
    ensures WellKeyed(r) && forall q :: q in r ==> r[q] == Answer("", "")
  {
    map q | q in QuestionKeys :: Answer("", "")
  }

  // ---------------------------------------------------------------------------
  // String.prototype.trim
  // ---------------------------------------------------------------------------

  /** The code points `trim` strips: ECMAScript WhiteSpace (tab, vertical tab,
      form feed, no-break space, byte order mark and the space separators) and
      LineTerminator (line feed, carriage return, line and paragraph separators). */
  const WhitespaceChars: set<char> :=
    {'\t', '\n', '\U{000B}', '\U{000C}', '\r', ' ', '\U{00A0}', '\U{1680}',
     '\U{2028}', '\U{2029}', '\U{202F}', '\U{205F}', '\U{3000}', '\U{FEFF}'}

  predicate IsJsWhitespace(c: char) {
    c in WhitespaceChars || '\U{2000}' <= c <= '\U{200A}'
  }

  predicate AllWhitespace(s: string) {
    forall i :: 0 <= i < |s| ==> IsJsWhitespace(s[i])
  }

  /** How many whitespace characters `s` starts with. */
  function LeadingWhitespace(s: string): (n: nat)
    ensures n <= |s|
    ensures forall i :: 0 <= i < n ==> IsJsWhitespace(s[i])
    ensures n < |s| ==> !IsJsWhitespace(s[n])
  {
    if s == [] || !IsJsWhitespace(s[0]) then 0 else 1 + LeadingWhitespace(s[1..])
  }

  /** Where `s[from..end]` ends once its trailing whitespace is dropped. */
  function TrailingEnd(s: string, from: nat, end: nat): (e: nat)
    requires from <= end <= |s|
    ensures from <= e <= end
    ensures forall i :: e <= i < end ==> IsJsWhitespace(s[i])
    ensures e > from ==> !IsJsWhitespace(s[e - 1])
    decreases end
  {
    if end > from && IsJsWhitespace(s[end - 1]) then TrailingEnd(s, from, end - 1) else end
  }

  /** `s.trim()`: empty exactly when `s` is all whitespace; otherwise the piece
      of `s` between its leading and its trailing whitespace, which neither
      starts nor ends with whitespace. */
  function Trim(s: string): (r: string)
    ensures r == [] <==> AllWhitespace(s)
    ensures r != [] ==> !IsJsWhitespace(r[0]) && !IsJsWhitespace(r[|r| - 1])
    ensures var n := LeadingWhitespace(s); n + |r| <= |s| && r == s[n..n + |r|]
    ensures AllWhitespace(s[..LeadingWhitespace(s)]) && AllWhitespace(s[LeadingWhitespace(s) + |r|..])
  {
    var n := LeadingWhitespace(s);
    var e := TrailingEnd(s, n, |s|);
    assert e > n ==> s[n..e][0] == s[n] && s[n..e][e - n - 1] == s[e - 1];
    s[n..e]
  }

  // ---------------------------------------------------------------------------
  // Render-time derivations
  // ---------------------------------------------------------------------------

  /** `canProceed`: a non-blank scenario or prediction on those steps, a
      selected option on a question step. */
  function CanProceed(step: int, scenario: string, prediction: string, responses: map<string, Answer>): (r: bool)
    requires IsStep(step) && WellKeyed(responses)
    ensures step == ScenarioStep ==> (r <==> exists i :: 0 <= i < |scenario| && !IsJsWhitespace(scenario[i]))
    ensures step == PredictionStep ==> (r <==> exists i :: 0 <= i < |prediction| && !IsJsWhitespace(prediction[i]))
    ensures step >= 0 ==> (r <==> responses[QuestionIds[step]].option != "")
  {
    if step == ScenarioStep then |Trim(scenario)| > 0
    else if step == PredictionStep then |Trim(prediction)| > 0
    else responses[QuestionIds[step]].option != ""
  }

  /** The condition under which `handleKeyDown` calls `handleNext`: Enter with
      the meta key, then the source's three-branch test. It fires exactly when
      `canProceed` holds. */
  function ShortcutFires(key: string, metaKey: bool, step: int, scenario: string, prediction: string,
                         responses: map<string, Answer>): (r: bool)
    requires IsStep(step) && WellKeyed(responses)
    ensures r <==> key == "Enter" && metaKey && CanProceed(step, scenario, prediction, responses)
  {
    if key == "Enter" && metaKey then
      if step == ScenarioStep && Trim(scenario) != "" then true
      else if step == PredictionStep && Trim(prediction) != "" then true
      else step >= 0 && responses[QuestionIds[step]].option != ""
    else false
  }

  /** `getStepLabel`. */
  function StepLabel(step: int): (text: string)
    requires IsStep(step)
    ensures step == ScenarioStep ==> text == "Your Scenario"
    ensures step == PredictionStep ==> text == "Your Prediction"
    ensures step >= 0 ==> text == "Question " + NatToString(step + 1) + " of 5"
  {
    if step == ScenarioStep then "Your Scenario"
    else if step == PredictionStep then "Your Prediction"
    else "Question " + NatToString(step + 1) + " of " + NatToString(|QuestionIds|)
  }

  /** Different steps carry different labels. */
  lemma StepLabelInjective(a: int, b: int)
    requires IsStep(a) && IsStep(b) && StepLabel(a) == StepLabel(b)
    ensures a == b
  {
    var la, lb := StepLabel(a), StepLabel(b);
    assert la[0] == 'Q' <==> a >= 0;
    assert lb[0] == 'Q' <==> b >= 0;
    assert a < 0 ==> (la[5] == 'S' <==> a == ScenarioStep);
    assert b < 0 ==> (lb[5] == 'S' <==> b == ScenarioStep);
    if a >= 0 && b >= 0 {
      var da, db := NatToString(a + 1), NatToString(b + 1);
      assert |da| == 1 && |db| == 1;
      assert la[9] == da[0] && lb[9] == db[0];
      assert da == db;
      NatToStringInjective(a + 1, b + 1);
    }
  }

  /** The three looks of a progress segment: `bg-primary` for the current step,
      `bg-primary/40` for steps behind it, `bg-muted` for steps ahead. */
  datatype Segment = Current | Completed | Upcoming

  function SegmentAt(index: int, step: int): Segment {
    if index == step + 2 then Current
    else if index < step + 2 then Completed
    else Upcoming
  }

  /** The progress indicator: one segment per step. */
  function ProgressBar(step: int): (bar: seq<Segment>)
    requires IsStep(step)
    ensures |bar| == TotalSteps
    ensures forall i :: 0 <= i < |bar| ==> (bar[i] == Current <==> i == step + 2)
    ensures forall i :: 0 <= i < |bar| ==> (bar[i] == Completed <==> i < step + 2)
  {
    seq(TotalSteps, i => SegmentAt(i, step))
  }

  function CountCurrent(bar: seq<Segment>): nat {
    if bar == [] then 0 else (if bar[0] == Current then 1 else 0) + CountCurrent(bar[1..])
  }

  lemma {:induction false} CountCurrentSingle(bar: seq<Segment>, j: int)
    requires forall i :: 0 <= i < |bar| ==> (bar[i] == Current <==> i == j)
    ensures CountCurrent(bar) == if 0 <= j < |bar| then 1 else 0
  {
    if bar != [] {
      forall i | 0 <= i < |bar| - 1 ensures bar[1..][i] == Current <==> i == j - 1 {
        assert bar[1..][i] == bar[i + 1];
      }
      CountCurrentSingle(bar[1..], j - 1);
    }
  }

  /** Exactly one segment is highlighted as current. */
  lemma ExactlyOneCurrent(step: int)
    requires IsStep(step)
    ensures CountCurrent(ProgressBar(step)) == 1
  {
    CountCurrentSingle(ProgressBar(step), step + 2);
  }

  // ---------------------------------------------------------------------------
  // The record handed to onComplete
  // ---------------------------------------------------------------------------

  const AnswerJoiner: string := " \U{2014} "

  /** A question's flattened answer: the option, then " — " and the elaboration
      when the elaboration is non-empty (it is not trimmed). */
  function FormatAnswer(a: Answer): (r: string)
    ensures a.elaboration == "" ==> r == a.option
    ensures a.elaboration != "" ==> |r| == |a.option| + |AnswerJoiner| + |a.elaboration|
                                    && r[..|a.option|] == a.option
                                    && r[|a.option|..|a.option| + |AnswerJoiner|] == AnswerJoiner
                                    && r[|a.option| + |AnswerJoiner|..] == a.elaboration
  {
    if a.elaboration != "" then a.option + AnswerJoiner + a.elaboration else a.option
  }

  const FormattedKeys: set<string> := {"Scenario", "UserPrediction"} + QuestionKeys

  /** `formattedResponses`: exactly the keys Scenario, UserPrediction and Q1..Q5;
      the two texts verbatim and each question's flattened answer. */
  ghost predicate IsFormatted(rec: map<string, string>, scenario: string, prediction: string,
                              responses: map<string, Answer>)
    requires WellKeyed(responses)
  {
    && rec.Keys == FormattedKeys
    && rec["Scenario"] == scenario
    && rec["UserPrediction"] == prediction
    && forall q :: q in QuestionKeys ==> rec[q] == FormatAnswer(responses[q])
  }

  /** The question ids are pairwise different and differ from the two text keys. */
  lemma QuestionIdsDistinct()
    ensures forall i, j :: 0 <= i < j < |QuestionIds| ==> QuestionIds[i] != QuestionIds[j]
    ensures "Scenario" !in QuestionIds && "UserPrediction" !in QuestionIds
  {
  }

  /** The `formattedResponses` build in `handleNext`: start from the two texts,
      then `forEach` entry of `responses` store its flattened answer. */
  method FormatResponses(scenario: string, prediction: string, responses: map<string, Answer>)
    returns (rec: map<string, string>)
    requires WellKeyed(responses)
    ensures IsFormatted(rec, scenario, prediction, responses)
  {
    QuestionIdsDistinct();
    rec := map["Scenario" := scenario, "UserPrediction" := prediction];
    var i := 0;
    while i < |QuestionIds|
      invariant 0 <= i <= |QuestionIds|
      invariant forall k :: k in rec <==> k == "Scenario" || k == "UserPrediction" || k in QuestionIds[..i]
      invariant rec["Scenario"] == scenario && rec["UserPrediction"] == prediction
      invariant forall j :: 0 <= j < i ==> rec[QuestionIds[j]] == FormatAnswer(responses[QuestionIds[j]])
    {
      var q := QuestionIds[i];
      rec := rec[q := FormatAnswer(responses[q])];
      assert QuestionIds[..i + 1] == QuestionIds[..i] + [q];
      i := i + 1;
    }
    assert QuestionIds[..i] == QuestionIds;
  }

  // ---------------------------------------------------------------------------
  // The component state and its handlers
  // ---------------------------------------------------------------------------

  class QuestionnaireFlow {
    var currentStep: int
    var scenario: string
    var userPrediction: string
    var responses: map<string, Answer>

    /** The step stays in -2 .. 4 and every question keeps its entry. */
    ghost predicate Valid()
      reads this
    {
      IsStep(currentStep) && WellKeyed(responses)
    }

    constructor ()
      ensures Valid()
      ensures currentStep == ScenarioStep && scenario == "" && userPrediction == ""
      ensures responses == InitialResponses()
    {
      currentStep := ScenarioStep;
      scenario := "";
      userPrediction := "";
      responses := InitialResponses();
    }

    /** The scenario textarea's `onChange`. */
    method SetScenario(value: string)
      requires Valid()
      modifies this
      ensures Valid()
      ensures scenario == value
      ensures currentStep == old(currentStep) && userPrediction == old(userPrediction) && responses == old(responses)
    {
      scenario := value;
    }

    /** The prediction textarea's `onChange`. */
    method SetUserPrediction(value: string)
      requires Valid()
      modifies this
      ensures Valid()
      ensures userPrediction == value
      ensures currentStep == old(currentStep) && scenario == old(scenario) && responses == old(responses)
    {
      userPrediction := value;
    }

    /** `handleOptionSelect`, reached from the option buttons of a question step:
        replaces the current question's option and nothing else. */
    method HandleOptionSelect(choice: string)
      requires Valid() && currentStep >= 0
      modifies this
      ensures Valid()
      ensures currentStep == old(currentStep) && scenario == old(scenario) && userPrediction == old(userPrediction)
      ensures responses[QuestionIds[currentStep]] == Answer(choice, old(responses)[QuestionIds[currentStep]].elaboration)
      ensures forall q :: q in responses && q != QuestionIds[currentStep] ==> responses[q] == old(responses)[q]
    {
      var id := QuestionIds[currentStep];
      responses := responses[id := responses[id].(option := choice)];
    }

    /** `handleElaborationChange`, reached from the elaboration textarea of a
        question step: replaces the current question's elaboration and nothing else. */
    method HandleElaborationChange(value: string)
      requires Valid() && currentStep >= 0
      modifies this
      ensures Valid()
      ensures currentStep == old(currentStep) && scenario == old(scenario) && userPrediction == old(userPrediction)
      ensures responses[QuestionIds[currentStep]] == Answer(old(responses)[QuestionIds[currentStep]].option, value)
      ensures forall q :: q in responses && q != QuestionIds[currentStep] ==> responses[q] == old(responses)[q]
    {
      var id := QuestionIds[currentStep];
      responses := responses[id := responses[id].(elaboration := value)];
    }

    /** `handleNext`: on the last question emits the formatted answers (the
        `onComplete` call) and stays; elsewhere advances one step and emits nothing. */
    method HandleNext() returns (emitted: Option<map<string, string>>)
      requires Valid()
      modifies this
      ensures Valid()
      ensures scenario == old(scenario) && userPrediction == old(userPrediction) && responses == old(responses)
      ensures old(currentStep) == LastQuestionStep ==>
        currentStep == old(currentStep) && emitted.Some? && IsFormatted(emitted.value, scenario, userPrediction, responses)
      ensures old(currentStep) != LastQuestionStep ==> currentStep == old(currentStep) + 1 && emitted == None
    {
      if currentStep == LastQuestionStep {
        var rec := FormatResponses(scenario, userPrediction, responses);
        emitted := Some(rec);
      } else {
        currentStep := currentStep + 1;
        emitted := None;
      }
    }

    /** `handleBack`: one step back, except on the scenario step. */
    method HandleBack()
      requires Valid()
      modifies this
      ensures Valid()
      ensures scenario == old(scenario) && userPrediction == old(userPrediction) && responses == old(responses)
      ensures old(currentStep) == ScenarioStep ==> currentStep == ScenarioStep
      ensures old(currentStep) != ScenarioStep ==> currentStep == old(currentStep) - 1
    {
      if currentStep != ScenarioStep {
        currentStep := currentStep - 1;
      }
    }

    /** `handleKeyDown`: Cmd+Enter runs `handleNext` exactly when the step may be left. */
    method HandleKeyDown(key: string, metaKey: bool) returns (emitted: Option<map<string, string>>)
      requires Valid()
      modifies this
      ensures Valid()
      ensures scenario == old(scenario) && userPrediction == old(userPrediction) && responses == old(responses)
      ensures !(key == "Enter" && metaKey && CanProceed(old(currentStep), scenario, userPrediction, responses)) ==>
        currentStep == old(currentStep) && emitted == None
      ensures key == "Enter" && metaKey && CanProceed(old(currentStep), scenario, userPrediction, responses) ==>
        if old(currentStep) == LastQuestionStep
        then currentStep == old(currentStep) && emitted.Some? && IsFormatted(emitted.value, scenario, userPrediction, responses)
        else currentStep == old(currentStep) + 1 && emitted == None
    {
      if ShortcutFires(key, metaKey, currentStep, scenario, userPrediction, responses) {
        emitted := HandleNext();
      } else {
        emitted := None;
      }
    }
  }
}
