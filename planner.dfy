/** The planning phase: its request and the plan it falls back to. */
module Planner {
  import opened Wrappers
  import opened Models
  import opened Providers
  import Analyzer

  /** One step of the fallback plan. */
  function PlanStep(number: nat, action: string, details: string, tokens: nat): Json {
    JObject(map["step_number" := JNum(number as real), "action" := JStr(action),
                "details" := JStr(details), "estimated_tokens" := JNum(tokens as real)])
  }

  /** The per-step token estimates of a list of steps built by PlanStep, summed. */
  function StepTokens(steps: seq<Json>): real {
    if steps == [] then 0.0
    else
      var s := steps[0];
      var t := if s.JObject? && "estimated_tokens" in s.fields && s.fields["estimated_tokens"].JNum?
               then s.fields["estimated_tokens"].n else 0.0;
      t + StepTokens(steps[1..])
  }

  /**
   * The plan used when the reply holds no decodable object: two steps
   * whose estimates add up to the stated total, the analysis's output type
   * (or text) as the expected output.
   */
  function FallbackPlan(description: string, analysis: JsonObject): (p: JsonObject)
    ensures p.Keys == {"steps", "total_estimated_tokens", "expected_output", "tools_needed"}
    ensures p["steps"].JArray? && |p["steps"].items| == 2
    ensures p["total_estimated_tokens"] == JNum(StepTokens(p["steps"].items)) == JNum(2000.0)
    ensures "output_type" in analysis ==> p["expected_output"] == analysis["output_type"]
    ensures "output_type" !in analysis ==> p["expected_output"] == JStr("text")
    ensures p["steps"].items[0].JObject? && "details" in p["steps"].items[0].fields
            && p["steps"].items[0].fields["details"] == JStr(description)
    ensures p["steps"].items[0] == PlanStep(1, "Analyze requirements", description, 500)
    ensures p["steps"].items[1] == PlanStep(2, "Generate solution", "Create the requested output", 1500)
    ensures p["tools_needed"] == JArray([JStr("ai_generation")])
  {
    var steps := [PlanStep(1, "Analyze requirements", description, 500),
                  PlanStep(2, "Generate solution", "Create the requested output", 1500)];
    assert steps[1..][1..] == [];
    assert StepTokens(steps[1..]) == 1500.0 + StepTokens(steps[1..][1..]);
    assert StepTokens(steps) == 2000.0;
    map["steps" := JArray(steps),
        "total_estimated_tokens" := JNum(2000.0),
        "expected_output" := Get(analysis, "output_type", JStr("text")),
        "tools_needed" := JArray([JStr("ai_generation")])]
  }

  /** The planning request: a system line and the filled planning template, at temperature 0.4, capped at 1000 tokens. */
  function PlanningRequest(description: string, analysis: JsonObject, language: string): (r: ChatRequest)
    ensures |r.messages| == 2 && r.messages[0].role == SystemRole && r.messages[1].role == UserRole
    ensures r.messages[1].body == Templated(PlanningPrompt(description, analysis, language))
    ensures r.temperature == 0.4 && r.maxTokens == Some(1000)
  {
    ChatRequest([AIMessage(SystemRole, Plain(Some("You are an expert planner."))),
                 AIMessage(UserRole, Templated(PlanningPrompt(description, analysis, language)))],
                0.4, Some(1000))
  }

  /** The planning phase given what the completion call did. */
  function CreatePlan(description: string, analysis: JsonObject, outcome: AiOutcome, parse: string -> Option<JsonObject>): (r: Result<JsonObject, string>)
    ensures outcome.Raised? <==> r.Failure?
    ensures r.Failure? ==> r.error == outcome.error
    ensures r.Success? && Analyzer.ParseJsonReply(outcome.response.content, parse).Some? ==>
              r.value == Analyzer.ParseJsonReply(outcome.response.content, parse).value
    ensures r.Success? && Analyzer.ParseJsonReply(outcome.response.content, parse).None? ==>
              r.value == FallbackPlan(description, analysis)
  {
    match outcome
    case Raised(e) => Failure(e)
    case Answer(response) =>
      match Analyzer.ParseJsonReply(response.content, parse)
      case Some(plan) => Success(plan)
      case None => Success(FallbackPlan(description, analysis))
  }

  /** When both phases fall back, the plan expects the fallback analysis's text output. */
  lemma FallbackPlanAfterFallbackAnalysis(description: string)
    ensures FallbackPlan(description, Analyzer.FallbackAnalysis(description))["expected_output"] == JStr("text")
  {
  }
}
