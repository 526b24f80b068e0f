/**
 * The analysis phase: the request it sends, how it pulls a JSON object out of
 * a free-text reply, and the analysis it falls back to when there is none.
 */
module Analyzer {
  import opened Wrappers
  import opened Models
  import opened Providers
  import opened Strings

  /**
   * The text a greedy, dot-matches-all search for a brace-delimited span
   * finds: from the first '{' to the last '}' after it.
   */
  function ExtractJsonSpan(text: string): (r: Option<string>)
    ensures r.None? <==> !exists i, j :: 0 <= i < j < |text| && text[i] == '{' && text[j] == '}'
    ensures r.Some? ==> exists i, j :: 0 <= i < j < |text| && r.value == text[i..j + 1]
                          && text[i] == '{' && text[j] == '}'
                          && (forall k :: 0 <= k < i ==> text[k] != '{')
                          && (forall k :: j < k < |text| ==> text[k] != '}')
  {
    match FindFirst(text, '{')
    case None => None
    case Some(i) =>
      match FindLast(text, '}')
      case None => None
      case Some(j) => if i < j then Some(text[i..j + 1]) else None
  }

  /** Every brace-delimited span of the text lies inside the extracted one. */
  lemma ExtractJsonSpanIsLongest(text: string, a: int, b: int)
    requires 0 <= a < b < |text| && text[a] == '{' && text[b] == '}'
    ensures ExtractJsonSpan(text).Some?
    ensures exists i, j :: 0 <= i <= a && b <= j < |text| && text[i] == '{' && text[j] == '}'
                           && ExtractJsonSpan(text).value == text[i..j + 1]
  {
    var i := FindFirst(text, '{').value;
    var j := FindLast(text, '}').value;
    assert i <= a && b <= j;
  }

  /** The object the reply contains, if the span decodes. */
  function ParseJsonReply(content: string, parse: string -> Option<JsonObject>): Option<JsonObject> {
    match ExtractJsonSpan(content)
    case None => None
    case Some(span) => parse(span)
  }

  /** The analysis used when the reply holds no decodable object. */
  function FallbackAnalysis(description: string): (a: JsonObject)
    ensures a.Keys == {"intent", "category", "complexity", "output_type", "needs_clarification",
                       "questions", "estimated_steps", "key_requirements"}
    ensures a["intent"].JStr? && |a["intent"].s| <= 100 && a["intent"].s <= description
    ensures |description| <= 100 ==> a["intent"] == JStr(description)
    ensures |description| > 100 ==> a["intent"] == JStr(description[..100])
    ensures !Truthy(Get(a, "needs_clarification", JBool(false)))
    ensures a["output_type"] == JStr("text")
  {
    var n := if |description| < 100 then |description| else 100;
    map["intent" := JStr(description[..n]),
        "category" := JStr("other"),
        "complexity" := JStr("medium"),
        "output_type" := JStr("text"),
        "needs_clarification" := JBool(false),
        "questions" := JArray([]),
        "estimated_steps" := JNum(3.0),
        "key_requirements" := JArray([])]
  }

  /** The analysis request: a system line and the filled analysis template, at temperature 0.3, capped at 500 tokens. */
  function AnalysisRequest(description: string, language: string): (r: ChatRequest)
    ensures |r.messages| == 2 && r.messages[0].role == SystemRole && r.messages[1].role == UserRole
    ensures r.messages[1].body == Templated(AnalysisPrompt(description, language))
    ensures r.temperature == 0.3 && r.maxTokens == Some(500)
  {
    ChatRequest([AIMessage(SystemRole, Plain(Some("You are a task analysis expert."))),
                 AIMessage(UserRole, Templated(AnalysisPrompt(description, language)))],
                0.3, Some(500))
  }

  /**
   * The analysis phase given what the completion call did: its error
   * propagates; otherwise the decoded object, or the fallback analysis.
   */
  function AnalyzeTask(description: string, outcome: AiOutcome, parse: string -> Option<JsonObject>): (r: Result<JsonObject, string>)
    ensures outcome.Raised? <==> r.Failure?
    ensures r.Failure? ==> r.error == outcome.error
    ensures r.Success? && ParseJsonReply(outcome.response.content, parse).Some? ==>
              r.value == ParseJsonReply(outcome.response.content, parse).value
    ensures r.Success? && ParseJsonReply(outcome.response.content, parse).None? ==>
              r.value == FallbackAnalysis(description)
  {
    match outcome
    case Raised(e) => Failure(e)
    case Answer(response) =>
      match ParseJsonReply(response.content, parse)
      case Some(analysis) => Success(analysis)
      case None => Success(FallbackAnalysis(description))
  }

  /** A reply without any '{' ... '}' never sends the task to clarification. */
  lemma NoJsonNeverClarifies(description: string, response: AIResponse, parse: string -> Option<JsonObject>)
    requires forall k :: 0 <= k < |response.content| ==> response.content[k] != '{'
    ensures AnalyzeTask(description, Answer(response), parse) == Success(FallbackAnalysis(description))
    ensures !Truthy(Get(AnalyzeTask(description, Answer(response), parse).value, "needs_clarification", JBool(false)))
  {
  }
}
