/**
 * The task chat endpoints: reading a task's messages, and sending one, which
 * stores the user's turn, asks the task's provider with the whole
 * conversation, stores the reply and charges its cost.
 */
module ChatApi {
  import opened Wrappers
  import opened Models
  import opened Schemas
  import opened Providers
  import opened Factory
  import opened Store
  import TaskApi

  /** The conversation as the provider receives it: every stored turn, in order. */
  function Conversation(messages: seq<Message>): (r: seq<AIMessage>)
    ensures |r| == |messages|
    ensures forall i :: 0 <= i < |r| ==> r[i] == AIMessage(messages[i].role, Plain(messages[i].content))
  {
    seq(|messages|, i requires 0 <= i < |messages| => AIMessage(messages[i].role, Plain(messages[i].content)))
  }

  /** The chat request: the conversation at temperature 0.7, no token cap. */
  function ChatRequestFor(messages: seq<Message>): ChatRequest {
    ChatRequest(Conversation(messages), 0.7, None)
  }

  /** GET /tasks/{id}/chat: the owner's task's messages in creation order. */
  function GetMessages(tasks: map<nat, Task>, messages: seq<Message>, userId: nat, taskId: nat): (r: Result<seq<Message>, ApiError>)
    ensures r.Failure? <==> TaskApi.OwnedTask(tasks, userId, taskId).None?
    ensures r.Failure? ==> r.error == TaskApi.TaskNotFound
    ensures r.Success? ==> r.value == MessagesOf(messages, taskId)
  {
    if TaskApi.OwnedTask(tasks, userId, taskId).None? then Failure(TaskApi.TaskNotFound)
    else Success(MessagesOf(messages, taskId))
  }

  /** The user's turn as stored. */
  function UserTurn(taskId: nat, content: string): Message {
    Message(taskId, UserRole, Some(content), 0, 0.0, None)
  }

  /** The reply as stored. */
  function ReplyTurn(taskId: nat, kind: ProviderKind, response: AIResponse): Message {
    Message(taskId, AssistantRole, Some(response.content), response.tokensUsed, response.cost, Some(kind.AsProvider()))
  }

  /** The reply's cost is added to the task and charged to the user, with no balance check. */
  function ChargeReply(u: User, t: Task, response: AIResponse): (r: (User, Task))
    ensures r.0.creditsBalance == u.creditsBalance - response.cost
    ensures r.0.monthlyUsage == u.monthlyUsage + response.cost
    ensures r.1.finalCost == t.finalCost + response.cost && r.1.tokensUsed == t.tokensUsed + response.tokensUsed
    ensures r.1.status == t.status
    ensures r.0 == u.(creditsBalance := r.0.creditsBalance, monthlyUsage := r.0.monthlyUsage)
    ensures r.1 == t.(finalCost := r.1.finalCost, tokensUsed := r.1.tokensUsed)
  {
    (u.(creditsBalance := u.creditsBalance - response.cost, monthlyUsage := u.monthlyUsage + response.cost),
     t.(finalCost := t.finalCost + response.cost, tokensUsed := t.tokensUsed + response.tokensUsed))
  }

  /** Chat keeps the ledger sum. */
  lemma ChatKeepsLedger(u: User, t: Task, response: AIResponse)
    ensures TaskApi.Ledger(ChargeReply(u, t, response).0) == TaskApi.Ledger(u)
  {
  }

  /** Nothing stops a reply from taking the balance below zero. */
  lemma ChatCanOverdraw(u: User, t: Task, response: AIResponse)
    requires u.creditsBalance == 0.0 && response.cost == 0.01
    ensures ChargeReply(u, t, response).0.creditsBalance < 0.0
  {
  }

  /** The call made for a task whose stored conversation is `messages`. */
  function ChatCall(kind: ProviderKind, t: Task, messages: seq<Message>): CallSite {
    CallSite(kind, ChatRequestFor(MessagesOf(messages, t.id)), t.retryCount)
  }

  /** The last turn the provider sees is the one just sent. */
  lemma ConversationEndsWithUserTurn(messages: seq<Message>, taskId: nat, content: string)
    ensures var conv := Conversation(MessagesOf(messages + [UserTurn(taskId, content)], taskId));
            |conv| > 0 && conv[|conv| - 1] == AIMessage(UserRole, Plain(Some(content)))
  {
    MessagesOfAppend(messages, UserTurn(taskId, content), taskId);
  }

  /** What answering a stored turn does: the reply returned, the rows written, the user and task after. */
  datatype ChatEffect = ChatEffect(result: Result<Message, ApiError>, messages: seq<Message>, user: User, task: Task)

  /**
   * Answering the conversation `withTurn`: a provider that cannot be built
   * or a call that raises is a 500 with nothing further written; an answer
   * is stored and charged.
   */
  function ReplyEffect(env: Env, ai: AiOracle, u: User, t: Task, withTurn: seq<Message>): (e: ChatEffect)
    ensures e.task.status == t.status
    ensures TaskApi.Ledger(e.user) == TaskApi.Ledger(u)
    ensures e.result.Success? ==> |e.messages| == |withTurn| + 1 && e.messages[..|withTurn|] == withTurn
    ensures e.result.Failure? ==> e.messages == withTurn && e.user == u && e.task == t && e.result.error.code == 500
    ensures e.result.Failure? <==> ProviderOutcome(env, t.provider.Name()).Failure?
                                   || ai(ChatCall(ProviderOutcome(env, t.provider.Name()).value, t, withTurn)).Raised?
  {
    match ProviderOutcome(env, t.provider.Name())
    case Failure(err) => ChatEffect(Failure(ApiError(500, err)), withTurn, u, t)
    case Success(kind) =>
      match ai(ChatCall(kind, t, withTurn))
      case Raised(err) => ChatEffect(Failure(ApiError(500, err)), withTurn, u, t)
      case Answer(response) =>
        var charged := ChargeReply(u, t, response);
        ChatEffect(Success(ReplyTurn(t.id, kind, response)), withTurn + [ReplyTurn(t.id, kind, response)],
                   charged.0, charged.1)
  }

  /** An answered call returns the stored reply turn and charges exactly what ChargeReply says. */
  lemma ReplyAnswered(env: Env, ai: AiOracle, u: User, t: Task, withTurn: seq<Message>, kind: ProviderKind, response: AIResponse)
    requires ProviderOutcome(env, t.provider.Name()) == Success(kind)
    requires ai(ChatCall(kind, t, withTurn)) == Answer(response)
    ensures var e := ReplyEffect(env, ai, u, t, withTurn);
            e.result == Success(ReplyTurn(t.id, kind, response))
            && e.messages == withTurn + [ReplyTurn(t.id, kind, response)]
            && (e.user, e.task) == ChargeReply(u, t, response)
  {
  }

  /** The second half of sending: ask the provider with the stored conversation and record the answer. */
  method Reply(db: Store, factory: ProviderFactory, ai: AiOracle, userId: nat, task: Task)
    returns (r: Result<Message, ApiError>)
    requires db.Valid() && factory.Valid() && userId in db.users && task.id in db.tasks
    requires db.tasks[task.id] == task
    modifies db, factory
    ensures db.Valid() && factory.Valid()
    ensures var e := ReplyEffect(factory.env, ai, old(db.users[userId]), task, old(db.messages));
            r == e.result && db.messages == e.messages
            && db.users == old(db.users)[userId := e.user] && db.tasks == old(db.tasks)[task.id := e.task]
    ensures db.files == old(db.files) && db.payments == old(db.payments) && db.nextTaskId == old(db.nextTaskId)
  {
    var p := factory.GetProvider(task.provider.Name());
    if p.Failure? {
      assert old(db.users)[userId := old(db.users[userId])] == old(db.users);
      assert old(db.tasks)[task.id := task] == old(db.tasks);
      return Failure(ApiError(500, p.error));
    }
    var kind := p.value;
    var history := MessagesOf(db.messages, task.id);
    var outcome := ai(CallSite(kind, ChatRequest(Conversation(history), 0.7, None), task.retryCount));
    if outcome.Raised? {
      assert old(db.users)[userId := old(db.users[userId])] == old(db.users);
      assert old(db.tasks)[task.id := task] == old(db.tasks);
      return Failure(ApiError(500, outcome.error));
    }
    var response := outcome.response;
    db.SaveMessage(task.id, AssistantRole, Some(response.content), response.tokensUsed, response.cost,
                   Some(kind.AsProvider()));
    var charged := ChargeReply(db.users[userId], task, response);
    db.PutTask(charged.1);
    db.PutUser(charged.0);
    r := Success(ReplyTurn(task.id, kind, response));
  }

  /**
   * POST /tasks/{id}/chat. The user's turn is committed before the provider
   * is asked, so it stays stored when the provider cannot be built or the
   * call raises.
   */
  method SendMessage(db: Store, factory: ProviderFactory, ai: AiOracle, userId: nat, taskId: nat, data: MessageCreate)
    returns (r: Result<Message, ApiError>)
    requires db.Valid() && factory.Valid() && userId in db.users
    modifies db, factory
    ensures db.Valid() && factory.Valid()
    ensures db.files == old(db.files) && db.payments == old(db.payments) && db.nextTaskId == old(db.nextTaskId)
    ensures !ValidMessageCreate(data) ==>
              r == Failure(TaskApi.ValidationFailed) && db.messages == old(db.messages)
              && db.tasks == old(db.tasks) && db.users == old(db.users)
    ensures ValidMessageCreate(data) && TaskApi.OwnedTask(old(db.tasks), userId, taskId).None? ==>
              r == Failure(TaskApi.TaskNotFound) && db.messages == old(db.messages)
              && db.tasks == old(db.tasks) && db.users == old(db.users)
    ensures ValidMessageCreate(data) && TaskApi.OwnedTask(old(db.tasks), userId, taskId).Some? ==>
              var e := ReplyEffect(factory.env, ai, old(db.users[userId]), old(db.tasks[taskId]),
                                   old(db.messages) + [UserTurn(taskId, data.content)]);
              r == e.result && db.messages == e.messages
              && db.users == old(db.users)[userId := e.user] && db.tasks == old(db.tasks)[taskId := e.task]
  {
    if !ValidMessageCreate(data) {
      return Failure(TaskApi.ValidationFailed);
    }
    var found := TaskApi.OwnedTask(db.tasks, userId, taskId);
    if found.None? {
      return Failure(TaskApi.TaskNotFound);
    }
    db.SaveMessage(taskId, UserRole, Some(data.content), 0, 0.0, None);
    r := Reply(db, factory, ai, userId, found.value);
  }
}
