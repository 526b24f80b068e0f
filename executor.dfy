/** The execution phase: its request, the result it assembles, and the one message it saves. */
module Executor {
  import opened Wrappers
  import opened Models
  import opened Providers
  import opened Store

  /** The execution request: a system line and the filled execution template, at temperature 0.7, capped at 4000 tokens. */
  function ExecutionRequest(description: string, plan: JsonObject, language: string): (r: ChatRequest)
    ensures |r.messages| == 2 && r.messages[0].role == SystemRole && r.messages[1].role == UserRole
    ensures r.messages[1].body == Templated(ExecutionPrompt(description, plan, language))
    ensures r.temperature == 0.7 && r.maxTokens == Some(4000)
  {
    ChatRequest([AIMessage(SystemRole, Plain(Some("You are an expert executor."))),
                 AIMessage(UserRole, Templated(ExecutionPrompt(description, plan, language)))],
                0.7, Some(4000))
  }

  /** The call the execution phase makes for a task and its plan. */
  function ExecutionCall(kind: ProviderKind, task: Task, user: User, plan: JsonObject): CallSite {
    CallSite(kind, ExecutionRequest(task.description, plan, user.outputLanguage), task.retryCount)
  }

  datatype ExecutionResult = ExecutionResult(
    text: string, files: seq<Json>, totalCost: real, totalTokens: int, providerUsed: string, modelUsed: string)

  /** The result reported for a response: its text, cost and tokens, no files, the backend and model used. */
  function ResultOf(kind: ProviderKind, response: AIResponse): (r: ExecutionResult)
    ensures r.text == response.content && r.files == []
    ensures r.totalCost == response.cost && r.totalTokens == response.tokensUsed
    ensures r.providerUsed == kind.Name() && r.modelUsed == response.model
  {
    ExecutionResult(response.content, [], response.cost, response.tokensUsed, kind.Name(), response.model)
  }

  /** The assistant message the execution phase saves. */
  function AssistantMessage(taskId: nat, kind: ProviderKind, response: AIResponse): Message {
    Message(taskId, AssistantRole, Some(response.content), response.tokensUsed, response.cost, Some(kind.AsProvider()))
  }

  /** The saved message and the reported result carry the same text, tokens, cost and backend. */
  lemma MessageMatchesResult(taskId: nat, kind: ProviderKind, response: AIResponse)
    ensures var m := AssistantMessage(taskId, kind, response);
            var r := ResultOf(kind, response);
            m.role == AssistantRole && m.content == Some(r.text) && m.tokensUsed == r.totalTokens
            && m.cost == r.totalCost && m.providerUsed.Some? && m.providerUsed.value.Name() == r.providerUsed
  {
  }

  /**
   * Executing a plan: one completion call; on an answer, exactly one
   * assistant message is saved and the result is returned; a raised error
   * propagates with nothing saved.
   */
  method ExecutePlan(db: Store, ai: AiOracle, kind: ProviderKind, task: Task, user: User, plan: JsonObject)
    returns (r: Result<ExecutionResult, string>)
    requires db.Valid() && task.id in db.tasks
    modifies db
    ensures db.Valid()
    ensures ai(ExecutionCall(kind, task, user, plan)).Raised? ==>
              r == Failure(ai(ExecutionCall(kind, task, user, plan)).error) && db.messages == old(db.messages)
    ensures ai(ExecutionCall(kind, task, user, plan)).Answer? ==>
              var response := ai(ExecutionCall(kind, task, user, plan)).response;
              r == Success(ResultOf(kind, response))
              && db.messages == old(db.messages) + [AssistantMessage(task.id, kind, response)]
    ensures db.users == old(db.users) && db.tasks == old(db.tasks) && db.files == old(db.files)
    ensures db.payments == old(db.payments) && db.nextTaskId == old(db.nextTaskId)
  {
    var outcome := ai(ExecutionCall(kind, task, user, plan));
    if outcome.Raised? {
      return Failure(outcome.error);
    }
    var response := outcome.response;
    var result := ExecutionResult(response.content, [], response.cost, response.tokensUsed, kind.Name(), response.model);
    db.SaveMessage(task.id, AssistantRole, Some(response.content), response.tokensUsed, response.cost,
                   Some(kind.AsProvider()));
    r := Success(result);
  }
}
