/**
 * The persisted records of the platform: users, tasks, chat messages, files
 * and payments, with the enumerations and column defaults they declare.
 */
module Models {
  import opened Wrappers

  datatype UserPlan = Free | Pro | UnlimitedPlan

  /** The nine task statuses, in the order the enumeration declares them. */
  datatype TaskStatus =
    | AwaitingPayment
    | Pending
    | Analyzing
    | Clarifying
    | Planning
    | Executing
    | Completed
    | Failed
    | Cancelled

  /** The stored spelling of a status. */
  function StatusName(s: TaskStatus): string {
    match s
    case AwaitingPayment => "awaiting_payment"
    case Pending => "pending"
    case Analyzing => "analyzing"
    case Clarifying => "clarifying"
    case Planning => "planning"
    case Executing => "executing"
    case Completed => "completed"
    case Failed => "failed"
    case Cancelled => "cancelled"
  }

  /** The position of a status in the enumeration. */
  function Ordinal(s: TaskStatus): nat {
    match s
    case AwaitingPayment => 0
    case Pending => 1
    case Analyzing => 2
    case Clarifying => 3
    case Planning => 4
    case Executing => 5
    case Completed => 6
    case Failed => 7
    case Cancelled => 8
  }

  /** Every status, in declaration order: nine of them, each exactly once. */
  function AllStatuses(): (r: seq<TaskStatus>)
    ensures |r| == 9 && r[0] == AwaitingPayment && r[8] == Cancelled
    ensures forall s: TaskStatus :: Ordinal(s) < |r| && r[Ordinal(s)] == s
    ensures forall i, j :: 0 <= i < j < |r| ==> r[i] != r[j]
  {
    [AwaitingPayment, Pending, Analyzing, Clarifying, Planning, Executing, Completed, Failed, Cancelled]
  }

  datatype TaskUrgency = Flexible | Today | Asap

  /** The provider a task or a user asks for; `Auto` lets the selector decide. */
  datatype AIProvider = Auto | OpenAI | Claude | Gemini | Ollama {
    function Name(): string {
      match this
      case Auto => "auto"
      case OpenAI => "openai"
      case Claude => "claude"
      case Gemini => "gemini"
      case Ollama => "ollama"
    }
  }

  datatype MessageRole = UserRole | AssistantRole | SystemRole

  /** A decoded JSON value, as `json.loads` produces it. */
  datatype Json =
    | JNull
    | JBool(b: bool)
    | JNum(n: real)
    | JStr(s: string)
    | JArray(items: seq<Json>)
    | JObject(fields: map<string, Json>)

  type JsonObject = map<string, Json>

  /** Python truthiness of a decoded value, as `if value:` reads it. */
  predicate Truthy(j: Json) {
    match j
    case JNull => false
    case JBool(b) => b
    case JNum(n) => n != 0.0
    case JStr(s) => s != ""
    case JArray(xs) => xs != []
    case JObject(m) => m != map[]
  }

  /** `d.get(key, default)` on a decoded object. */
  function Get(d: JsonObject, key: string, default: Json): Json {
    if key in d then d[key] else default
  }

  datatype User = User(
    id: nat,
    plan: UserPlan,
    creditsBalance: real,
    monthlyLimit: real,
    monthlyUsage: real,
    outputLanguage: string,
    isActive: bool)

  datatype Task = Task(
    id: nat,
    userId: nat,
    description: string,
    status: TaskStatus,
    urgency: TaskUrgency,
    provider: AIProvider,
    plan: Option<JsonObject>,
    analysis: Option<JsonObject>,
    clarificationQuestions: Option<Json>,
    resultText: Option<string>,
    resultFiles: Option<seq<Json>>,
    estimatedCost: real,
    finalCost: real,
    tokensUsed: int,
    errorMessage: Option<string>,
    retryCount: nat)

  /** One chat turn. Its place in the store's message list is its creation order. */
  datatype Message = Message(
    taskId: nat,
    role: MessageRole,
    content: Option<string>,
    tokensUsed: int,
    cost: real,
    providerUsed: Option<AIProvider>)

  datatype FileRecord = FileRecord(id: nat, userId: nat, taskId: Option<nat>)

  datatype Payment = Payment(id: nat, userId: nat, taskId: Option<nat>, amount: real)

  /** A user row as the column defaults create it. */
  function NewUser(id: nat): (u: User)
    ensures u.plan == Free && u.creditsBalance == 0.0 && u.monthlyLimit == 10.0
    ensures u.monthlyUsage == 0.0 && u.isActive && u.outputLanguage == "en"
  {
    User(id, Free, 0.0, 10.0, 0.0, "en", true)
  }

  /** A task row as the column defaults create it. */
  function NewTask(id: nat, userId: nat, description: string): (t: Task)
    ensures t.status == Pending && t.urgency == Flexible && t.provider == Auto
    ensures t.estimatedCost == 0.0 && t.finalCost == 0.0 && t.tokensUsed == 0 && t.retryCount == 0
    ensures t.plan.None? && t.analysis.None? && t.clarificationQuestions.None?
    ensures t.resultText.None? && t.errorMessage.None?
  {
    Task(id, userId, description, Pending, Flexible, Auto, None, None, None, None, None, 0.0, 0.0, 0, None, 0)
  }

  /** A message row with only the required columns given. */
  function NewMessage(taskId: nat, role: MessageRole, content: Option<string>): (m: Message)
    ensures m.tokensUsed == 0 && m.cost == 0.0 && m.providerUsed.None?
  {
    Message(taskId, role, content, 0, 0.0, None)
  }

  /** The stored spelling of a backend name, when it is one of the enumeration's. */
  function ProviderFromName(name: string): (p: Option<AIProvider>)
    ensures p.Some? ==> p.value.Name() == name
    ensures forall q: AIProvider :: q.Name() == name ==> p == Some(q)
  {
    if name == "auto" then Some(Auto)
    else if name == "openai" then Some(OpenAI)
    else if name == "claude" then Some(Claude)
    else if name == "gemini" then Some(Gemini)
    else if name == "ollama" then Some(Ollama)
    else None
  }
}
