/**
 * The two provider backends: the message and response shapes they share,
 * OpenAI's pricing table and cost rule, and Ollama's free cost rule, token
 * estimate, response field derivation and stream line filter. The network
 * calls themselves are not modelled: their outcome is an input.
 */
module Providers {
  import opened Wrappers
  import opened Money
  import opened Models
  import opened Strings
  import Pricing

  /** The backend an instance talks to. */
  datatype ProviderKind = OpenAIKind | OllamaKind {
    /** The instance's `name` attribute. */
    function Name(): string {
      match this
      case OpenAIKind => "openai"
      case OllamaKind => "ollama"
    }

    /** The same name as a stored provider value. */
    function AsProvider(): (p: AIProvider)
      ensures p.Name() == Name()
    {
      match this
      case OpenAIKind => OpenAI
      case OllamaKind => Ollama
    }
  }

  /**
   * The rendered prompt templates are kept symbolic: the model records which
   * template was filled and with what, not the template's wording.
   */
  datatype Prompt =
    | AnalysisPrompt(description: string, language: string)
    | PlanningPrompt(description: string, analysis: JsonObject, language: string)
    | ExecutionPrompt(description: string, plan: JsonObject, language: string)

  datatype MessageBody = Plain(text: Option<string>) | Templated(prompt: Prompt)

  datatype AIMessage = AIMessage(role: MessageRole, body: MessageBody)

  /** One `chat_completion` request. */
  datatype ChatRequest = ChatRequest(messages: seq<AIMessage>, temperature: real, maxTokens: Option<nat>)

  datatype AIResponse = AIResponse(content: string, tokensUsed: int, cost: real, model: string, provider: string)

  /** What a completion call does: answer, or raise with a message. */
  datatype AiOutcome = Answer(response: AIResponse) | Raised(error: string)

  /** Everything a completion call can see; the oracle may answer differently per attempt. */
  datatype CallSite = CallSite(provider: ProviderKind, request: ChatRequest, retry: nat)

  type AiOracle = CallSite -> AiOutcome

  // ---------------------------------------------------------------- OpenAI

  datatype TokenPrice = TokenPrice(input: real, output: real)

  /** OpenAI's price table per 1000 tokens, in listed order. */
  function OpenAiPricing(): seq<(string, TokenPrice)> {
    [("gpt-4", TokenPrice(0.03, 0.06)),
     ("gpt-4-turbo", TokenPrice(0.01, 0.03)),
     ("gpt-4o-mini", TokenPrice(0.00015, 0.0006)),
     ("gpt-3.5-turbo", TokenPrice(0.0005, 0.0015))]
  }

  const OpenAiDefaultModel: string := "gpt-4o-mini"

  /** The table's price for a model; unknown models are priced as gpt-4-turbo. */
  function OpenAiPrice(model: string): (p: TokenPrice)
    ensures (exists i :: 0 <= i < |OpenAiPricing()| && OpenAiPricing()[i] == (model, p))
         || (p == OpenAiPricing()[1].1 && forall i :: 0 <= i < |OpenAiPricing()| ==> OpenAiPricing()[i].0 != model)
    ensures p.input > 0.0 && p.output > 0.0
  {
    if model == "gpt-4" then OpenAiPricing()[0].1
    else if model == "gpt-4-turbo" then OpenAiPricing()[1].1
    else if model == "gpt-4o-mini" then OpenAiPricing()[2].1
    else if model == "gpt-3.5-turbo" then OpenAiPricing()[3].1
    else OpenAiPricing()[1].1
  }

  /** For every model both tables list, OpenAI's price table agrees with the pricing engine's cost table. */
  lemma TablesAgree()
    ensures forall r :: r in Pricing.ProviderCosts()["openai"] ==> OpenAiPrice(r.model) == TokenPrice(r.input, r.output)
  {
  }

  /** The unrounded cost: tokens per thousand times the per-thousand price, for input and output. */
  function UnroundedCost(inputTokens: int, outputTokens: int, price: TokenPrice): real {
    (inputTokens as real / 1000.0) * price.input + (outputTokens as real / 1000.0) * price.output
  }

  /** OpenAI's cost of a call, rounded to six places. */
  function OpenAiCalculateCost(inputTokens: int, outputTokens: int, model: string): (c: real)
    ensures OnGrid(c, 6)
    ensures Scale(UnroundedCost(inputTokens, outputTokens, OpenAiPrice(model)), 6) - Scale(c, 6) <= 0.5
    ensures Scale(c, 6) - Scale(UnroundedCost(inputTokens, outputTokens, OpenAiPrice(model)), 6) <= 0.5
  {
    Round(UnroundedCost(inputTokens, outputTokens, OpenAiPrice(model)), 6)
  }

  /** No tokens cost nothing. */
  lemma OpenAiZeroTokensFree(model: string)
    ensures OpenAiCalculateCost(0, 0, model) == 0.0
  {
    assert UnroundedCost(0, 0, OpenAiPrice(model)) == 0.0;
    assert Scale(0.0, 6) == 0.0;
    RoundOnGrid(0.0, 6);
  }

  lemma ScaleTerm(a: int, b: int, p: real)
    requires 0 <= a <= b && p > 0.0
    ensures 0.0 <= (a as real / 1000.0) * p <= (b as real / 1000.0) * p
  {
    DivMonotone(0.0, a as real, 1000.0);
    DivMonotone(a as real, b as real, 1000.0);
    MulMonotone(0.0, a as real / 1000.0, p);
    MulMonotone(a as real / 1000.0, b as real / 1000.0, p);
  }

  /** The cost is non-negative and grows with each token count. */
  lemma OpenAiCostMonotone(i1: int, o1: int, i2: int, o2: int, model: string)
    requires 0 <= i1 <= i2 && 0 <= o1 <= o2
    ensures 0.0 <= OpenAiCalculateCost(i1, o1, model) <= OpenAiCalculateCost(i2, o2, model)
  {
    var p := OpenAiPrice(model);
    ScaleTerm(i1, i2, p.input);
    ScaleTerm(o1, o2, p.output);
    RoundNonNegative(UnroundedCost(i1, o1, p), 6);
    RoundMonotone(UnroundedCost(i1, o1, p), UnroundedCost(i2, o2, p), 6);
  }

  /** The models OpenAI offers: the price table's keys, which include the default model. */
  function OpenAiAvailableModels(): (r: seq<string>)
    ensures |r| == |OpenAiPricing()| && forall i :: 0 <= i < |r| ==> r[i] == OpenAiPricing()[i].0
    ensures OpenAiDefaultModel in r
  {
    ["gpt-4", "gpt-4-turbo", "gpt-4o-mini", "gpt-3.5-turbo"]
  }

  /** The usage block an OpenAI completion returns. */
  datatype OpenAiUsage = OpenAiUsage(promptTokens: int, completionTokens: int, totalTokens: int)

  /**
   * The response built from an OpenAI completion: the cost comes from the
   * prompt and completion counts, the reported tokens are the total count.
   */
  function OpenAiResponse(content: string, usage: OpenAiUsage, model: string): (r: AIResponse)
    ensures r.content == content && r.model == model && r.provider == OpenAIKind.Name()
    ensures r.tokensUsed == usage.totalTokens
    ensures r.cost == OpenAiCalculateCost(usage.promptTokens, usage.completionTokens, model)
  {
    AIResponse(content, usage.totalTokens,
               OpenAiCalculateCost(usage.promptTokens, usage.completionTokens, model),
               model, OpenAIKind.Name())
  }

  // ---------------------------------------------------------------- Ollama

  const OllamaDefaultModel: string := "llama3.2"

  /** Ollama is free. */
  function OllamaCalculateCost(inputTokens: int, outputTokens: int, model: string): (c: real)
    ensures c == 0.0
  {
    0.0
  }

  /** Ollama's estimate: four characters to a token. */
  function OllamaCountTokens(text: string, model: string): (n: nat)
    ensures 4 * n <= |text| < 4 * n + 4
  {
    |text| / 4
  }

  /** A longer text is never estimated at fewer tokens. */
  lemma OllamaCountTokensMonotone(a: string, b: string, model: string)
    requires |a| <= |b|
    ensures OllamaCountTokens(a, model) <= OllamaCountTokens(b, model)
  {
  }

  /** The models Ollama lists, which do not include its own default model. */
  function OllamaAvailableModels(): (r: seq<string>)
    ensures OllamaDefaultModel !in r
    ensures |r| == 4
  {
    ["llama2", "mistral", "codellama", "phi"]
  }

  /**
   * The response built from Ollama's reply body: the text under
   * message/content, or "" when either key is absent; tokens estimated from
   * that text; no cost. A body whose message or content has another shape
   * (which the original would fail on further down) is reported as malformed.
   */
  function OllamaResponse(data: JsonObject, model: string): (r: Result<AIResponse, string>)
    ensures r.Success? ==> r.value.cost == 0.0 && r.value.provider == OllamaKind.Name()
    ensures r.Success? ==> r.value.model == model && r.value.tokensUsed == |r.value.content| / 4
    ensures "message" !in data ==> r == Success(AIResponse("", 0, 0.0, model, "ollama"))
    ensures "message" in data && data["message"].JObject? && "content" !in data["message"].fields ==>
              r.Success? && r.value.content == ""
    ensures "message" in data && data["message"].JObject? && "content" in data["message"].fields
            && data["message"].fields["content"].JStr? ==>
              r.Success? && r.value.content == data["message"].fields["content"].s
  {
    var message := Get(data, "message", JObject(map[]));
    if !message.JObject? then Failure("malformed message")
    else
      var content := Get(message.fields, "content", JStr(""));
      if !content.JStr? then Failure("malformed content")
      else Success(AIResponse(content.s, |content.s| / 4, 0.0, model, OllamaKind.Name()))
  }

  /**
   * Python's `key in container` on a decoded JSON value: a key test on an
   * object, an element test on an array, a substring test on a string; on
   * null, a boolean or a number it raises TypeError (None here).
   */
  function PyIn(key: string, container: Json): (r: Option<bool>)
    ensures r.None? <==> IsScalar(container)
    ensures container.JObject? ==> r == Some(key in container.fields)
    ensures container.JArray? ==> r == Some(JStr(key) in container.items)
    ensures container.JStr? ==> (r == Some(true) <==> exists i :: OccursAt(container.s, key, i))
  {
    match container
    case JObject(m) => Some(key in m)
    case JArray(xs) => Some(JStr(key) in xs)
    case JStr(s) => Some(HasInfix(s, key))
    case _ => None
  }

  /** JSON values that support neither `in` nor indexing by a key. */
  predicate IsScalar(j: Json) {
    j.JNull? || j.JBool? || j.JNum?
  }

  /** A streamed line's decoded value: nothing for an empty line or one that is not JSON. */
  function Decoded(line: string, parse: string -> Option<Json>): Option<Json> {
    if line == "" then None else parse(line)
  }

  /** An object holding an object under "message" that holds "content". */
  predicate HasMessageContent(d: Json) {
    d.JObject? && "message" in d.fields && d.fields["message"].JObject?
    && "content" in d.fields["message"].fields
  }

  /** What one streamed line does: nothing, a chunk, or a TypeError that ends the stream. */
  datatype LineOutcome = Skip | Chunk(content: Json) | LineRaises

  /**
   * One line of the stream: the `"message" in data and "content" in
   * data["message"]` test and the `data["message"]["content"]` lookup, with
   * Python's TypeError wherever `in` or indexing by a string is undefined.
   */
  function StreamLine(line: string, parse: string -> Option<Json>): (r: LineOutcome)
    ensures Decoded(line, parse).None? ==> r.Skip?
    ensures r.Chunk? <==> Decoded(line, parse).Some? && HasMessageContent(Decoded(line, parse).value)
    ensures r.Chunk? ==> r.content == Decoded(line, parse).value.fields["message"].fields["content"]
    ensures Decoded(line, parse).Some? && IsScalar(Decoded(line, parse).value) ==> r.LineRaises?
    ensures var d := Decoded(line, parse);
            d.Some? && d.value.JObject? && "message" !in d.value.fields ==> r.Skip?
    ensures var d := Decoded(line, parse);
            (d.Some? && d.value.JObject? && "message" in d.value.fields && IsScalar(d.value.fields["message"]))
            ==> r.LineRaises?
    ensures var d := Decoded(line, parse);
            (d.Some? && !d.value.JObject? && PyIn("message", d.value) == Some(true)) ==> r.LineRaises?
  {
    match Decoded(line, parse)
    case None => Skip
    case Some(data) =>
      match PyIn("message", data)
      case None => LineRaises
      case Some(false) => Skip
      case Some(true) =>
        if !data.JObject? then LineRaises
        else
          var message := data.fields["message"];
          match PyIn("content", message)
          case None => LineRaises
          case Some(false) => Skip
          case Some(true) =>
            if message.JObject? then Chunk(message.fields["content"]) else LineRaises
  }

  /** The chunks a stream yields, in order, and whether a line raised and ended it. */
  datatype StreamResult = StreamResult(chunks: seq<Json>, raised: bool)

  /** The stream over `lines`: chunks up to the first line that raises, if any. */
  function StreamChunks(lines: seq<string>, parse: string -> Option<Json>): (r: StreamResult)
    ensures |r.chunks| <= |lines|
  {
    if lines == [] then StreamResult([], false)
    else StreamStep(StreamChunks(lines[..|lines| - 1], parse), StreamLine(lines[|lines| - 1], parse))
  }

  /** The stream after one more line: unchanged once raised, else that line's outcome applied. */
  function StreamStep(sofar: StreamResult, outcome: LineOutcome): (r: StreamResult)
    ensures |r.chunks| <= |sofar.chunks| + 1
    ensures sofar.raised ==> r == sofar
    ensures r.raised <==> sofar.raised || outcome.LineRaises?
    ensures !sofar.raised && outcome.Chunk? ==> r == StreamResult(sofar.chunks + [outcome.content], false)
    ensures !sofar.raised && !outcome.Chunk? ==> r.chunks == sofar.chunks
  {
    if sofar.raised then sofar
    else match outcome
      case Skip => sofar
      case Chunk(c) => StreamResult(sofar.chunks + [c], false)
      case LineRaises => StreamResult(sofar.chunks, true)
  }

  /** The stream raises exactly when one of its lines does. */
  lemma {:induction false} StreamRaisedIff(lines: seq<string>, parse: string -> Option<Json>)
    ensures StreamChunks(lines, parse).raised <==> exists i :: 0 <= i < |lines| && StreamLine(lines[i], parse).LineRaises?
    decreases |lines|
  {
    if lines != [] {
      var init := lines[..|lines| - 1];
      StreamRaisedIff(init, parse);
      assert forall i :: 0 <= i < |init| ==> init[i] == lines[i];
    }
  }

  /** A line with message content, before any raise, appends that content to the stream. */
  lemma StreamYieldsContent(lines: seq<string>, line: string, parse: string -> Option<Json>)
    requires !StreamChunks(lines, parse).raised
    requires StreamLine(line, parse).Chunk?
    ensures StreamChunks(lines + [line], parse)
            == StreamResult(StreamChunks(lines, parse).chunks + [StreamLine(line, parse).content], false)
  {
    assert (lines + [line])[..|lines + [line]| - 1] == lines;
  }

  /** Skipped lines contribute nothing to the stream. */
  lemma {:induction false} StreamSkipsLine(lines: seq<string>, line: string, more: seq<string>, parse: string -> Option<Json>)
    requires StreamLine(line, parse).Skip?
    ensures StreamChunks(lines + [line] + more, parse) == StreamChunks(lines + more, parse)
    decreases |more|
  {
    var a, b := lines + [line] + more, lines + more;
    if more == [] {
      assert a[..|a| - 1] == lines && a[|a| - 1] == line;
      assert StreamChunks(a, parse) == StreamStep(StreamChunks(lines, parse), Skip);
      assert b == lines;
    } else {
      var init := more[..|more| - 1];
      StreamSkipsLine(lines, line, init, parse);
      assert a[..|a| - 1] == lines + [line] + init;
      assert b[..|b| - 1] == lines + init;
      assert a[|a| - 1] == b[|b| - 1];
    }
  }

  /** Once a line has raised, no later line changes the stream. */
  lemma {:induction false} StreamStaysRaised(lines: seq<string>, more: seq<string>, parse: string -> Option<Json>)
    requires StreamChunks(lines, parse).raised
    ensures StreamChunks(lines + more, parse) == StreamChunks(lines, parse)
    decreases |more|
  {
    if more == [] {
      assert lines + more == lines;
    } else {
      var init := more[..|more| - 1];
      StreamStaysRaised(lines, init, parse);
      assert (lines + more)[..|lines + more| - 1] == lines + init;
    }
  }

  /** The first line that raises ends the stream with the chunks yielded before it. */
  lemma StreamStopsAtRaise(lines: seq<string>, line: string, more: seq<string>, parse: string -> Option<Json>)
    requires !StreamChunks(lines, parse).raised
    requires StreamLine(line, parse).LineRaises?
    ensures StreamChunks(lines + [line] + more, parse) == StreamResult(StreamChunks(lines, parse).chunks, true)
  {
    assert (lines + [line])[..|lines + [line]| - 1] == lines;
    StreamStaysRaised(lines + [line], more, parse);
  }

  /**
   * The stream as the original produces it: walk the lines, yield the
   * message content of each line that decodes to a message with content,
   * and stop at the first line on which the test or the lookup raises.
   */
  method StreamCompletion(lines: seq<string>, parse: string -> Option<Json>) returns (chunks: seq<Json>, raised: bool)
    ensures StreamResult(chunks, raised) == StreamChunks(lines, parse)
  {
    chunks := [];
    raised := false;
    var i := 0;
    while i < |lines| && !raised
      invariant 0 <= i <= |lines|
      invariant StreamResult(chunks, raised) == StreamChunks(lines[..i], parse)
    {
      var line := lines[i];
      if line != "" {
        var data := parse(line);
        if data.Some? {
          var hasMessage := PyIn("message", data.value);
          if hasMessage.None? {
            raised := true;
          } else if hasMessage.value {
            if !data.value.JObject? {
              raised := true;
            } else {
              var message := data.value.fields["message"];
              var hasContent := PyIn("content", message);
              if hasContent.None? {
                raised := true;
              } else if hasContent.value {
                if message.JObject? {
                  chunks := chunks + [message.fields["content"]];
                } else {
                  raised := true;
                }
              }
            }
          }
        }
      }
      assert lines[..i + 1][..i] == lines[..i];
      i := i + 1;
    }
    if raised {
      StreamStaysRaised(lines[..i], lines[i..], parse);
      assert lines[..i] + lines[i..] == lines;
    } else {
      assert lines[..i] == lines;
    }
  }
}
