/**
 * Request and response shapes with the field constraints the API validates
 * before any handler runs.
 */
module Schemas {
  import opened Wrappers
  import opened Models

  /** Body of a task-creation request; urgency and provider have defaults. */
  datatype TaskCreate = TaskCreate(description: string, urgency: TaskUrgency, provider: AIProvider)

  predicate ValidTaskCreate(t: TaskCreate) {
    10 <= |t.description| <= 5000
  }

  /** A request that gives only the description. */
  function TaskCreateWithDefaults(description: string): (t: TaskCreate)
    ensures t.description == description && t.urgency == Flexible && t.provider == Auto
  {
    TaskCreate(description, Flexible, Auto)
  }

  datatype MessageCreate = MessageCreate(content: string)

  predicate ValidMessageCreate(m: MessageCreate) {
    1 <= |m.content| <= 10000
  }

  datatype UserRegister = UserRegister(email: string, password: string, fullName: Option<string>)

  /** The password rule; e-mail syntax is checked by a foreign validator and not modelled. */
  predicate ValidUserRegister(u: UserRegister) {
    |u.password| >= 8
  }

  datatype CheckoutCreate = CheckoutCreate(
    amount: real,
    taskId: Option<nat>,
    provider: string,
    successUrl: string,
    cancelUrl: string)

  predicate ValidCheckoutCreate(c: CheckoutCreate) {
    c.amount > 0.0
  }

  /** The statuses a task response can carry. */
  datatype ApiTaskStatus =
    | ApiPending | ApiAnalyzing | ApiClarifying | ApiPlanning
    | ApiExecuting | ApiCompleted | ApiFailed | ApiCancelled

  function ApiStatusName(s: ApiTaskStatus): string {
    match s
    case ApiPending => "pending"
    case ApiAnalyzing => "analyzing"
    case ApiClarifying => "clarifying"
    case ApiPlanning => "planning"
    case ApiExecuting => "executing"
    case ApiCompleted => "completed"
    case ApiFailed => "failed"
    case ApiCancelled => "cancelled"
  }

  /**
   * Reading a stored status into the response enumeration. The response
   * enumeration has no member for `awaiting_payment`, so a task in that
   * status (every freshly created task) cannot be represented.
   */
  function ToApiStatus(s: TaskStatus): (r: Option<ApiTaskStatus>)
    ensures r.None? <==> s == AwaitingPayment
    ensures r.Some? ==> ApiStatusName(r.value) == StatusName(s)
  {
    match s
    case AwaitingPayment => None
    case Pending => Some(ApiPending)
    case Analyzing => Some(ApiAnalyzing)
    case Clarifying => Some(ApiClarifying)
    case Planning => Some(ApiPlanning)
    case Executing => Some(ApiExecuting)
    case Completed => Some(ApiCompleted)
    case Failed => Some(ApiFailed)
    case Cancelled => Some(ApiCancelled)
  }

  /** The currency a price estimate reports when none is given. */
  const PriceEstimateDefaultCurrency: string := "USD"

  /** An HTTP error the API raises: status code and detail text. */
  datatype ApiError = ApiError(code: int, detail: string)
}
