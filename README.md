# OmniTask paid-task core, modelled in Dafny

OmniTask is a back end that takes a task description from a user and prices it. Once the user pays, it runs the
task through AI agents (analyse, clarify if needed, plan, execute) on a pluggable AI provider, and lets the user
chat with the provider about the task. This project models the part of it that handles money and the task's
status, and proves properties of that model:

- **Pricing** (`Pricing`, `Estimator`, `Money`, `Providers`):
  - the token estimate, the provider cost table and the threshold price rule;
  - the unused refund rule and the estimator agent's urgency tiers;
  - the OpenAI and Ollama cost and token functions.
  - Money is exact `real`, and Python's `round(x, n)` is round-half-to-even on the exact value (`Money.Round`).
- **The credit ledger** (`TaskApi`, `ChatApi`):
  - creating a task (priced, awaiting payment), confirming it (the estimate is debited) and cancelling it (the
    estimate is refunded when no execution cost was recorded);
  - deleting it, and the owner-scoped reads;
  - a chat message, which charges the reply's cost.
  - Every guard is a pure function of the rows involved. Each endpoint is a method that applies it to the
    `Store.Store` class, which holds the users, tasks, messages, files and payments.
  - `TaskApi.Ledger` (balance plus monthly usage) is proved unchanged by confirm, cancel, completion and chat.
- **The background run** (`TaskManager`, `Analyzer`, `Planner`, `Executor`):
  - `execute_task` is a family of mutually recursive functions: the run, the analysing, clarifying, planning and
    executing phases, and the fallback retry.
  - Methods mirror them phase by phase on the store and the provider factory.
  - Each phase is proved *settled*:
    - the task's identity is kept;
    - the retry count is bounded by two;
    - the run ends in completed, failed or clarifying;
    - the trace of committed statuses follows the allowed lifecycle;
    - only a completed run charges the user and saves a message, carrying the final cost.
- **The provider factory** (`Factory`): the `ProviderFactory` class and its cache of instances, with:
  - automatic selection;
  - the unknown-name fallback to Ollama;
  - the fallback scan, with its quirks, proved as lemmas;
  - the health report.
- **Text handling**:
  - the greedy `{…}` extraction the analyser and planner use, and their fallback analysis and plan;
  - the clarification rule;
  - the chat agent's context window and `strip`;
  - the upload naming rule.
- **Validation and defaults** (`Schemas`, `Models`): the field limits of the request bodies, the column defaults,
  and the mismatch between the stored status set and the response status set.

## External calls

Calls into code outside this model become parameters:

- An AI call is an oracle `ai: CallSite -> AiOutcome`. The call site holds the backend, the request and the retry
  count, so every attempt may be answered differently.
- `json.loads` is `parse: string -> Option<JsonObject>` where the code expects an object. In the Ollama stream, where any JSON value
  may come back, it is `parse: string -> Option<Json>`.
- The environment (`Factory.Env`) holds:
  - the OpenAI key;
  - the set of backends whose health check succeeds;
  - the error text the OpenAI client raises when it is built without a key.
- The chat agent's generator is `generate: string -> string`.
- A fresh upload name takes the uuid as a parameter.

## Behaviour of the code worth knowing

- **Price rule**: the price is 1.50 when the AI cost is at most 0.49, and three times the cost otherwise. This
  makes costs in (0.49, 0.4983] cheaper than 1.50 (`Pricing.PriceDipsAboveThreshold`,
  `Pricing.ThresholdPriceNotMonotone`).
- **Urgency**: task pricing ignores urgency.
- **Currency**: the quote is in EUR, while the price-estimate schema's default currency is USD.
- **Cancelling**: it refunds the full estimate exactly when the task's final cost is 0, whatever the phase.
  `calculate_refund` exists but no endpoint uses it; it is modelled on its own as `Pricing.CalculateRefund`.
- **Double charge**: a task is charged its estimate at confirmation, and charged again at completion for the
  execution's own cost (`TaskManager.ConfirmThenCompleteChargesTwice`).
- **Cancelling an unpaid task**: it refunds an estimate that was never debited (`TaskApi.CancelUnpaidTaskMintsCredit`).
- **Fallback tried list**: the fallback scan is given the task's provider *name* (which may be `auto`) as the tried
  name, not the backend actually used. So the fallback can return the backend that just failed
  (`Factory.FallbackCanReturnFailedBackend`).
- **Scan with retries spent**: the scan runs, and can raise, even when no retries are left.
- **Unpaid tasks have no response status**: the response schema's status set lacks awaiting_payment
  (`Schemas.ToApiStatus`). So `create_task` fails response validation after its row is committed, and so do
  `get_task` on a task still awaiting payment and `get_tasks` when the page holds one. `TaskApi.CreateTask` models the value the handler itself returns.

## Model

| member | source | states |
|---|---|---|
| Analyzer.ExtractJsonSpan | backend/app/agents/analyzer.py:71-77 | No result exactly when no `{` comes before a `}`. Otherwise the result is the span from the first `{` to the last `}`, as the greedy DOTALL pattern matches. |
| Analyzer.ExtractJsonSpanIsLongest | backend/app/agents/analyzer.py:71-77 | Any `{` … `}` pair in the text lies inside the extracted span. |
| Analyzer.FallbackAnalysis | backend/app/agents/analyzer.py:79-94 | The fallback analysis has exactly the eight documented keys. Its intent is `description[:100]`: the whole description up to 100 characters, else its first 100. It never asks for clarification, and its output type is text. |
| Analyzer.AnalysisRequest | backend/app/agents/analyzer.py:49-64 | The analysis call sends a system message and then the user prompt, at temperature 0.3 with at most 500 tokens. |
| Analyzer.AnalyzeTask | backend/app/agents/analyzer.py:59-96 | The analysis fails exactly when the provider raises, with its error. A reply whose JSON span parses gives that object; any other reply gives the fallback. |
| Analyzer.NoJsonNeverClarifies | backend/app/agents/analyzer.py:79-94 | A reply without a `{` yields the fallback analysis, so the run never stops for clarification. |
| Planner.FallbackPlan | backend/app/agents/planner.py:86-110 | The fallback plan has four keys. It has two steps, numbered 1 and 2, and the steps' tokens (500 and 1500) sum to the stated total, 2000. The first step is "Analyze requirements" with the description as its details; the second is "Generate solution" with "Create the requested output". The expected output is the analysis's output type, or text when that is missing. The tools needed are exactly `["ai_generation"]`. |
| Planner.PlanningRequest | backend/app/agents/planner.py:57-73 | The planning call sends a system message and then the prompt built from the description and analysis, at temperature 0.4 with at most 1000 tokens. |
| Planner.CreatePlan | backend/app/agents/planner.py:69-112 | Planning fails exactly when the provider raises. A parsable JSON span is the plan; any other reply gives the fallback plan. |
| Planner.FallbackPlanAfterFallbackAnalysis | backend/app/agents/planner.py:86-110 | After a fallback analysis, the fallback plan expects text output. |
| Executor.ExecutionRequest | backend/app/agents/executor.py:53-69 | The execution call sends a system message and then the prompt built from the plan, at temperature 0.7 with at most 4000 tokens. |
| Executor.ResultOf | backend/app/agents/executor.py:72-83 | The result carries the reply's text, cost, tokens and model, the backend's name, and no files. |
| Executor.MessageMatchesResult | backend/app/agents/executor.py:86-95 | The saved assistant message has the result's text, tokens and cost, and names the result's provider. |
| Executor.ExecutePlan | backend/app/agents/executor.py:65-97 | A raised call saves nothing and returns the error. An answer returns its result and appends exactly one assistant message to the store. No other table changes. |
| TaskManager.Fail | backend/app/agents/task_manager.py:104-106 | A failed task has status failed and the given message. Every other field is unchanged. |
| TaskManager.Retried | backend/app/agents/task_manager.py:186-189 | A retried task keeps its identity, has one more retry, is set to the fallback backend and is pending again. |
| TaskManager.RetriedLifecycle | backend/app/agents/task_manager.py:174-193 | A failed execution, then pending, then a valid run, is again a valid lifecycle. |
| TaskManager.RunSettled | backend/app/agents/task_manager.py:77-193 | Every run from a loaded task and user is settled. It starts analysing exactly when the task's provider can be built. |
| TaskManager.AnalyseSettled | backend/app/agents/task_manager.py:89-107 | The analysing phase is settled. A failed analysis ends at analysing then failed, in one attempt with nothing escaping. The task is failed with "Analysis failed: " followed by the error. |
| TaskManager.AfterAnalysisSettled | backend/app/agents/task_manager.py:112-119 | The phase after analysis is settled. It stops at clarifying exactly when the analysis asks for it, storing the analysis and its questions. |
| TaskManager.PlanAndExecuteSettled | backend/app/agents/task_manager.py:124-142 | The planning phase is settled, and its trace goes analysing then planning. A failed planning ends at analysing, planning, failed, in one attempt with nothing escaping. The task is failed with "Planning failed: " followed by the error. |
| TaskManager.ExecuteSettled | backend/app/agents/task_manager.py:147-172 | The executing phase is settled. An answer completes in one attempt; a raised call records failed fourth. A raise that is not retried leaves the task failed with "Execution failed: " followed by the error, and the user unchanged. |
| TaskManager.CompletionSettled | backend/app/agents/task_manager.py:159-172 | A completed execution charges the user exactly its cost, in one attempt. The task takes the answer's text, no files, and the answer's cost and token count. The one saved message is the assistant message for the answer. The trace is analysing, planning, executing, completed. |
| TaskManager.AfterExecutionFailureSettled | backend/app/agents/task_manager.py:174-193 | After a failed execution the run is settled. It retries (more than one attempt) exactly when the scan finds a backend and fewer than two retries were made. Without a retry, the failed task and the user are left as they were, and the trace is analysing, planning, executing, failed. |
| TaskManager.RetriedRunSettled | backend/app/agents/task_manager.py:186-193 | A retry on the backend found is settled with respect to the original task. |
| TaskManager.ExecuteSpec | backend/app/agents/task_manager.py:61-84 | A missing task is left alone, and a task whose user is missing fails with "User not found". Otherwise the run is settled. |
| TaskManager.Recover | backend/app/agents/task_manager.py:28-39 | An escaped error marks the task failed with the error's text, and records one more failed commit. Otherwise the run stands as it is. |
| TaskManager.ClarifyingAndCompletedAreFinal | backend/app/agents/task_manager.py:112-172 | Clarifying and completed are only ever the last status a run commits. |
| TaskManager.ConfirmThenCompleteChargesTwice | backend/app/agents/task_manager.py:165-167 | A confirmed task that completes leaves the balance reduced by the estimate and by the final cost. |
| TaskManager.RecoveredRunIsSettled | backend/app/agents/task_manager.py:20-41 | After the outer handler, no error escapes and the status is final. An escaped error ends the trace with two failed commits and becomes the error message. |
| TaskManager.ExecuteTask | backend/app/agents/task_manager.py:44-193 | The store and factory end exactly as `ExecuteSpec` says, for each of its three cases. |
| TaskManager.RunTask | backend/app/agents/task_manager.py:77-193 | The task, user, messages, cache and trace become those of `Run`. No other table changes. |
| TaskManager.AnalysePass | backend/app/agents/task_manager.py:89-107 | The store and cache become those of `Analyse`. |
| TaskManager.AfterAnalysisPass | backend/app/agents/task_manager.py:112-119 | The store and cache become those of `AfterAnalysis`. |
| TaskManager.PlanAndExecutePass | backend/app/agents/task_manager.py:124-142 | The store and cache become those of `PlanAndExecute`. |
| TaskManager.ExecutePass | backend/app/agents/task_manager.py:147-172 | The store and cache become those of `Execute`. |
| TaskManager.FallbackPass | backend/app/agents/task_manager.py:174-193 | The store and cache become those of `AfterExecutionFailure`. |
| TaskManager.ExecuteTaskAsync | backend/app/agents/task_manager.py:20-41 | Like `ExecuteTask`, with an escaped error recorded on the task as `Recover` says. |
| TaskApi.CreateOutcome | backend/app/api/tasks.py:73-107 | Creation succeeds exactly when the body is valid, the free plan's monthly limit holds and the balance covers the quote. Validation errors are 422 and credit errors 402. A new task awaits payment at the quoted price. |
| TaskApi.CreatedTasksCostFlat | backend/app/api/tasks.py:73-82 | Every task that can be created is priced at exactly 1.50. |
| TaskApi.ConfirmOutcome | backend/app/api/tasks.py:296-314 | Confirmation needs awaiting payment (400 otherwise) and enough credit (402), and succeeds exactly when both hold. It debits the estimate, adds it to monthly usage and makes the task pending. |
| TaskApi.ConfirmOnlyOnce | backend/app/api/tasks.py:296-300 | A confirmed task cannot be confirmed again. |
| TaskApi.ConfirmKeepsLedger | backend/app/api/tasks.py:302-311 | Confirmation keeps balance plus usage, and never drives a non-negative balance below zero. |
| TaskApi.CancelOutcome | backend/app/api/tasks.py:243-255 | Cancelling fails exactly for finished tasks, and otherwise cancels. It refunds the estimate exactly when the final cost is 0, and leaves the user alone otherwise. |
| TaskApi.CancelKeepsLedgerAndRefundsOnce | backend/app/api/tasks.py:243-255 | Cancelling keeps balance plus usage, and a cancelled task cannot be cancelled again. |
| TaskApi.CancelUnpaidTaskMintsCredit | backend/app/api/tasks.py:252-255 | Cancelling a freshly created, unpaid task credits 1.50 that was never debited. |
| TaskApi.ConfirmThenCancelRestores | backend/app/api/tasks.py:252-255 | Confirming and then cancelling before any cost is recorded restores the user exactly. |
| TaskApi.DeleteGuard | backend/app/api/tasks.py:203-207 | Deletion is refused exactly for analysing, planning and executing tasks. |
| TaskApi.OwnedTask | backend/app/api/tasks.py:157-164 | A task is found exactly when the id exists and belongs to the user. |
| TaskApi.GetTask | backend/app/api/tasks.py:157-172 | It returns the owned task, or fails with 404. |
| TaskApi.ForeignTaskLooksMissing | backend/app/api/tasks.py:157-170 | Another user's task answers exactly as a missing one. |
| TaskApi.UserTaskIds | backend/app/api/tasks.py:132-135 | It lists exactly the user's task ids, strictly newest first. |
| TaskApi.Page | backend/app/api/tasks.py:136-137 | Offset then limit: at most `limit` items, the slice starting at `skip`, and nothing past the end. |
| TaskApi.GetTasks | backend/app/api/tasks.py:118-141 | The listing holds at most `limit` tasks, all the user's and all stored. |
| TaskApi.GetTasksListsAllNewestFirst | backend/app/api/tasks.py:118-141 | The default page holds every task of a user with at most 50, newest first. |
| TaskApi.CreateTask | backend/app/api/tasks.py:55-115 | On success one task is inserted with a new id, as `CreateOutcome` says. On failure nothing changes. |
| TaskApi.ConfirmTaskPayment | backend/app/api/tasks.py:263-337 | A task not owned gives 404. Otherwise the user and task rows become `ConfirmOutcome`'s, and nothing changes on an error. |
| TaskApi.CancelTask | backend/app/api/tasks.py:215-260 | A task not owned gives 404. Otherwise the user and task rows become `CancelOutcome`'s, and nothing changes on an error. |
| TaskApi.DeleteTask | backend/app/api/tasks.py:175-212 | A task not owned gives 404, and a running task is refused. Otherwise the task, its messages and its files are removed and its payments detached. |
| ChatApi.Conversation | backend/app/api/chat.py:106-109 | One AI message per stored message, in order, with the same role and content. |
| ChatApi.GetMessages | backend/app/api/chat.py:20-51 | It fails with 404 exactly when the task is not owned, and otherwise gives the task's messages in order. |
| ChatApi.ChargeReply | backend/app/api/chat.py:128-134 | The reply's cost is debited, and added to monthly usage and the task's final cost. The reply's tokens are added to the task. Nothing else changes. |
| ChatApi.ChatKeepsLedger | backend/app/api/chat.py:128-134 | A chat reply keeps balance plus usage. |
| ChatApi.ChatCanOverdraw | backend/app/api/chat.py:132-134 | No credit check is made, so a reply can drive the balance negative. |
| ChatApi.ConversationEndsWithUserTurn | backend/app/api/chat.py:83-109 | The conversation sent to the provider ends with the message just saved. |
| ChatApi.ReplyEffect | backend/app/api/chat.py:95-134 | The status is kept and the ledger is kept. It fails exactly when the provider cannot be built or the call raises; a failure is a 500 and changes nothing after the user's turn. A reply appends exactly one message. |
| ChatApi.ReplyAnswered | backend/app/api/chat.py:112-134 | An answered call succeeds with the assistant turn carrying the response, appends exactly that turn, and charges user and task as `ChargeReply` says. |
| ChatApi.Reply | backend/app/api/chat.py:95-139 | The store becomes `ReplyEffect`'s. |
| ChatApi.SendMessage | backend/app/api/chat.py:54-139 | An invalid body gives 422 and a task not owned gives 404, with nothing changed. Otherwise the user's turn is saved and the effect is `ReplyEffect`'s. |
| ChatAgent.Strip | backend/app/agents/chat.py:35 | The result neither starts nor ends with whitespace and lies within the text. Only whitespace is cut from either end. It is empty exactly when the text is all whitespace. |
| ChatAgent.StripIdempotent | backend/app/agents/chat.py:35 | Stripping twice is stripping once. |
| ChatAgent.LastFive | backend/app/agents/chat.py:24 | It gives the last five entries, or all of them when fewer. |
| ChatAgent.ContextIgnoresOlderHistory | backend/app/agents/chat.py:22-27 | History older than the last five entries does not affect the prompt. |
| ChatAgent.BuildContext | backend/app/agents/chat.py:19-30 | The loop builds exactly the context text. |
| ChatAgent.NoHistoryNoLines | backend/app/agents/chat.py:20-30 | Without history, the prompt is the task line, the user line and the instruction. |
| ChatAgent.HistoryTextAppend | backend/app/agents/chat.py:24-27 | The history text of two runs of entries is the concatenation of their texts. |
| ChatAgent.Respond | backend/app/agents/chat.py:11-35 | The reply is the stripped generation for the context prompt. |
| Clarification.Run | backend/app/agents/clarification.py:8-31 | Clarification is needed exactly when the description is shorter than 20 characters. The questions are then the three standard ones, and none otherwise. |
| Clarification.DependsOnlyOnLength | backend/app/agents/clarification.py:18 | Descriptions of equal length get the same verdict. |
| Estimator.BaseCost | backend/app/agents/estimator.py:21-25 | The cost tier is 0.50, 1.00 past 50 characters and 3.00 past 200. |
| Estimator.Multiplier | backend/app/agents/estimator.py:31-37 | The multiplier is asap 2.5, today 1.8, tomorrow 1.3, and 1.0 otherwise. |
| Estimator.RunIsExact | backend/app/agents/estimator.py:39-44 | Rounding to cents changes nothing: the prices are exactly the cost, three times it, and that times the multiplier. |
| Estimator.FinalAtLeastBase | backend/app/agents/estimator.py:28-39 | The final price is never below the base price. |
| Estimator.MonotoneInLength | backend/app/agents/estimator.py:21-39 | A longer description never costs less at the same urgency. |
| Estimator.MonotoneInUrgency | backend/app/agents/estimator.py:31-39 | The price increases with urgency: flexible ≤ tomorrow ≤ today ≤ asap. |
| Estimator.CurrencyAndEta | backend/app/agents/estimator.py:45-46 | The currency is USD, and the ETA is two hours exactly for asap. |
| Factory.SelectBestProvider | backend/app/ai/factory.py:60-72 | Automatic selection gives openai exactly when a non-empty key is set, and ollama otherwise. |
| Factory.ResolveName | backend/app/ai/factory.py:29-31 | Only `auto` is replaced, by the automatic choice. |
| Factory.KindFor | backend/app/ai/factory.py:46-58 | Only `openai` builds an OpenAI backend; every other name builds Ollama. |
| Factory.CreateOutcome | backend/app/ai/factory.py:43-58 | Building fails exactly for openai without a key, with the client's error. Otherwise it gives the name's backend. |
| Factory.AutoSelection | backend/app/ai/factory.py:30-31 | `auto` always builds, and gives OpenAI exactly when a key is set. |
| Factory.UnknownNamesGetOllama | backend/app/ai/factory.py:54-58 | Any name other than auto and openai gets an Ollama instance. |
| Factory.CallerListAfter | backend/app/ai/factory.py:91-92 | The caller's empty list stays empty; a non-empty one gets the failed name appended. |
| Factory.FallbackPicksFirstHealthy | backend/app/ai/factory.py:95-101 | A returned backend is healthy and comes from the first untried name whose instance is healthy. Every earlier untried name built an unhealthy instance. |
| Factory.FallbackNoneMeansAllUnhealthy | backend/app/ai/factory.py:97-103 | The scan finds none exactly when every untried name builds an unhealthy instance. |
| Factory.FallbackFailsOnlyWithoutKey | backend/app/ai/factory.py:97-99 | The scan raises only when it reaches an untried openai without a key, and then with the client's error. |
| Factory.FallbackResultBuildable | backend/app/ai/factory.py:97-101 | A returned backend is built again from its own name. |
| Factory.FallbackSkipsTried | backend/app/ai/factory.py:91-98 | OpenAI is returned only when neither the caller's list nor the failed name was openai. |
| Factory.FallbackCanReturnFailedBackend | backend/app/ai/factory.py:91-101 | With Ollama healthy and OpenAI not, a failure reported as `ollama` still yields Ollama. |
| Factory.FallbackRaisesWithoutKey | backend/app/ai/factory.py:97-99 | Without a key, a failure of ollama makes the scan raise. |
| Factory.HealthEntry | backend/app/ai/factory.py:113-118 | An entry is healthy, unhealthy, or (for openai only) the build error. |
| Factory.HealthReport | backend/app/ai/factory.py:109-120 | The report has exactly one entry per name checked. |
| Factory.HealthReportShape | backend/app/ai/factory.py:109-120 | The report names exactly openai and ollama. Ollama is never an error, and openai is an error exactly without a key. |
| Factory.ProviderFactory.constructor | backend/app/ai/factory.py:15 | The factory starts with an empty instance cache. |
| Factory.ProviderFactory.GetProvider | backend/app/ai/factory.py:17-40 | It gives what building the resolved name gives, cached or not. A success is cached under the resolved name; a failure leaves the cache alone. |
| Factory.ProviderFactory.GetFallbackProvider | backend/app/ai/factory.py:74-103 | It gives the scan's choice. The cache gains the instances the scan built, and the caller's list ends as `CallerListAfter` says. |
| Factory.ProviderFactory.HealthCheckAll | backend/app/ai/factory.py:105-120 | It gives the health report, caching the instances it builds. |
| Models.AllStatuses | backend/app/db/models.py:23-32 | There are nine distinct stored statuses, awaiting payment first and cancelled last. |
| Models.NewUser | backend/app/db/models.py:83-100 | A new user is on the free plan with 0 credits, a 10.0 monthly limit and no usage. They are active, with output language en. |
| Models.NewTask | backend/app/db/models.py:118-143 | A new task is pending, flexible and on auto. Its costs, tokens and retries are 0, and it has no plan, analysis, questions, result or error. |
| Models.NewMessage | backend/app/db/models.py:174-176 | A new message has no tokens, no cost and no provider. |
| Models.ProviderFromName | backend/app/db/models.py:41-46 | A name maps exactly to the provider value with that name. |
| Money.RoundHalfEven | backend/app/billing/pricing.py:127-130 | Rounding to an integer lands within a half, and ties go to the even integer. |
| Money.Round | backend/app/billing/pricing.py:127-130 | The result has the requested digits and is within half a unit of the last place. A tie goes to the even neighbour. |
| Money.RoundOnGrid | backend/app/agents/estimator.py:42-44 | A value that already has the requested digits is unchanged. |
| Money.RoundMonotone | backend/app/billing/pricing.py:127-130 | Rounding keeps order. |
| Money.RoundNonNegative | backend/app/billing/pricing.py:127-130 | A non-negative amount rounds to a non-negative amount. |
| Pricing.PricingKey | backend/app/billing/pricing.py:76-77 | An unknown provider is priced as auto; the key always has a model list. |
| Pricing.EstimateTokens | backend/app/billing/pricing.py:38-62 | The estimate is the truncation of 1.2 × 4 × (length ÷ 4 rounded down). |
| Pricing.EstimateTokensMonotone | backend/app/billing/pricing.py:54-62 | A longer description never gets fewer tokens. |
| Pricing.EstimateTokensShort | backend/app/billing/pricing.py:54 | Fewer than four characters give zero tokens. |
| Pricing.EstimateTokensBound | backend/app/billing/pricing.py:54-62 | A description within the 5000-character limit needs at most 6000 tokens. |
| Pricing.GetProviderCost | backend/app/billing/pricing.py:65-91 | The cost is tokens × the first model's blended 25/75 rate per 1000. Ollama is free, and unknown providers are priced as auto. |
| Pricing.BlendedRateBounds | backend/app/billing/pricing.py:14-35 | Every provider's first model costs between 0 and 0.00006 per token. |
| Pricing.ProviderCostMonotone | backend/app/billing/pricing.py:84-91 | More tokens never cost less, and the cost is never negative. |
| Pricing.CalculateTaskPrice | backend/app/billing/pricing.py:94-133 | The total is 1.50 up to 0.49 of AI cost, and otherwise three times the cost rounded to cents. The three cost fields are the cost rounded to 4 places. The currency is EUR. |
| Pricing.PriceIgnoresUrgencyAndDescription | backend/app/billing/pricing.py:109-124 | The quote depends only on the provider and the token count. |
| Pricing.PriceDipsAboveThreshold | backend/app/billing/pricing.py:121-124 | Just above the threshold, the price falls below the flat 1.50. |
| Pricing.ThresholdPriceNotMonotone | backend/app/billing/pricing.py:121-124 | A cost of 0.49 is priced 1.50 but 0.495 is priced 1.48. |
| Pricing.AcceptedTasksPriceFlat | backend/app/billing/pricing.py:118-124 | For every valid task body, the AI cost is at most 0.36 and the price is 1.50. |
| Pricing.CalculateRefund | backend/app/billing/pricing.py:136-167 | Pending gives 100%, analysing, clarifying and planning give 80%, and anything else gives nothing. The refund never exceeds the estimate. |
| Providers.OpenAiPrice | backend/app/ai/openai_provider.py:117 | A listed model gets its own price, and an unlisted one the gpt-4-turbo price. Both prices are positive. |
| Providers.TablesAgree | backend/app/ai/openai_provider.py:16-21 | Every OpenAI model in the pricing engine's cost table has the same input and output price in OpenAI's own price table. |
| Providers.OpenAiCalculateCost | backend/app/ai/openai_provider.py:109-122 | The cost has six decimals and is within half a millionth of the exact per-1000 price. |
| Providers.OpenAiZeroTokensFree | backend/app/ai/openai_provider.py:119-122 | No tokens cost nothing. |
| Providers.OpenAiCostMonotone | backend/app/ai/openai_provider.py:117-122 | More tokens never cost less, and the cost is never negative. |
| Providers.OpenAiAvailableModels | backend/app/ai/openai_provider.py:147-148 | The models listed are the priced models in table order, including the default. |
| Providers.OpenAiResponse | backend/app/ai/openai_provider.py:73-86 | The response carries the content, the total tokens, the model, the name openai, and the cost of the prompt and completion tokens. |
| Providers.OllamaCalculateCost | backend/app/ai/ollama_provider.py:115-122 | Ollama is free. |
| Providers.OllamaCountTokens | backend/app/ai/ollama_provider.py:124-126 | There are four characters per token, rounded down. |
| Providers.OllamaCountTokensMonotone | backend/app/ai/ollama_provider.py:124-126 | Longer text never has fewer tokens. |
| Providers.OllamaAvailableModels | backend/app/ai/ollama_provider.py:142-143 | Four models are listed, and the default model is not among them. |
| Providers.OllamaResponse | backend/app/ai/ollama_provider.py:65-85 | The response is free and named ollama, with tokens equal to the content length ÷ 4. A missing message or content gives empty content. |
| Strings.HasInfix | backend/app/ai/ollama_provider.py:110 | Python's substring `in`: true exactly when the pattern occurs at some position of the text. |
| Providers.PyIn | backend/app/ai/ollama_provider.py:110 | Python's `in` on a decoded value: a key test on an object, an element test on an array, a substring test on a string. It raises exactly on null, booleans and numbers. |
| Providers.StreamLine | backend/app/ai/ollama_provider.py:106-113 | An empty or undecodable line is skipped. A line yields a chunk exactly when it decodes to an object whose `message` is an object holding `content`, and the chunk is that content. A decoded null, boolean or number raises. So does a non-object that `in` finds `message` in, and an object whose `message` is a scalar. An object without `message` is skipped. |
| Providers.StreamStep | backend/app/ai/ollama_provider.py:105-113 | Nothing changes once the stream has raised. Before that, a content line appends its content, and any other line adds nothing. The stream has raised after the line exactly when it had before or the line raises. |
| Providers.StreamChunks | backend/app/ai/ollama_provider.py:105-113 | There is at most one chunk per line. |
| Providers.StreamYieldsContent | backend/app/ai/ollama_provider.py:110-111 | Before any raise, a line with message content appends exactly that content to the stream's chunks. |
| Providers.StreamRaisedIff | backend/app/ai/ollama_provider.py:105-113 | The stream raises exactly when one of its lines raises. |
| Providers.StreamSkipsLine | backend/app/ai/ollama_provider.py:105-113 | A skipped line leaves no trace in the stream. |
| Providers.StreamStaysRaised | backend/app/ai/ollama_provider.py:105-113 | Lines after the one that raised change nothing. |
| Providers.StreamStopsAtRaise | backend/app/ai/ollama_provider.py:105-113 | The first line that raises ends the stream, keeping the chunks yielded before it. |
| Providers.StreamCompletion | backend/app/ai/ollama_provider.py:87-113 | The loop yields exactly the stream's chunks and stops at the first line that raises, reporting that it raised. |
| Schemas.TaskCreateWithDefaults | backend/app/schemas.py:116-119 | A body that gives only a description is flexible and on auto. |
| Schemas.ToApiStatus | backend/app/schemas.py:20-28 | Every stored status except awaiting payment has a response status of the same name. Awaiting payment has none. |
| Store.MessagesOf | backend/app/api/chat.py:44-48 | Exactly the task's messages, in order. |
| Store.MessagesOfAppend | backend/app/api/chat.py:99-104 | Appending a message extends the task's list only when it belongs to the task. |
| Store.WithoutTask | backend/app/db/models.py:153 | A deleted task's messages go; all others stay. |
| Store.WithoutTaskKeepsOthers | backend/app/db/models.py:153 | Another task's messages are unchanged by the deletion. |
| Store.FilesWithoutTask | backend/app/db/models.py:154 | A deleted task's files go; all others stay. |
| Store.DetachPayments | backend/app/db/models.py:155 | Payments stay, and only those of the deleted task lose their task reference. |
| Store.Store.constructor | backend/app/db/models.py:72-155 | The store starts with the given users and no other rows. |
| Store.Store.AddTask | backend/app/api/tasks.py:109-111 | One task is inserted under a fresh id, and that id is returned. |
| Store.Store.PutTask | backend/app/api/tasks.py:257 | Only the task's row changes. |
| Store.Store.PutUser | backend/app/api/tasks.py:316 | Only the user's row changes. |
| Store.Store.SaveMessage | backend/app/agents/task_manager.py:196-227 | Exactly one message is appended. |
| Store.Store.DeleteTask | backend/app/api/tasks.py:209-210 | The task goes, its messages and files with it, and its payments are detached. |
| Upload.FileExtension | backend/app/api/upload.py:14 | The extension is the text after the last dot, or `bin` when there is none. |
| Upload.UploadFile | backend/app/api/upload.py:12-26 | A write error gives a 500 with its text. Otherwise the URL under /static/uploads names the fresh id and the extension, and the original name is returned. |
| Upload.StoredNameKeepsExtension | backend/app/api/upload.py:14-15 | A stored name keeps a dot-free extension. |
| Upload.StoredNameWithoutDotIsBin | backend/app/api/upload.py:14-15 | A name without a dot is stored with the extension bin. |

## Left out

- **Timestamps**: `started_at`, `completed_at` and `created_at` are not stored. Listing order uses the task id, and message order uses the append position in the store, which stands for creation order.
- **Prompt text**: the prompts' literal text is kept symbolic (`Prompt` values), and the agents' `print` output is dropped.
- **Tokens and streaming**:
  - OpenAI's tiktoken counting and its streaming generator are opaque encoders and network I/O.
  - The Ollama stream's byte framing is not modelled; each line is a string.
- **Providers.StreamCompletion**: a TypeError that ends the stream is reported as the `raised` flag. Its message text and its propagation through the caller are not modelled.
- **The queue**: putting a confirmed task on the worker queue (ARQ and Redis) is I/O. It is not modelled, and neither is its logged failure.
- **estimate_price endpoint**: not modelled. Its schema needs urgency fields that `calculate_task_price` does not return, so it raises at run time.
- **Estimator.Run urgency**: the estimator imports an `Urgency` name that `app/schemas.py` does not define, and it compares with the member itself for the ETA. The model treats urgency as the four values the code names.
- **TaskApi.CreateOutcome**: the 402 detail's formatted amounts are replaced by a fixed message. Pydantic's 422 bodies are just `ValidationFailed`.
- **Not modelled**:
  - authentication, payments and automations;
  - the `get_ai_provider` alias (it is `ProviderFactory.get_provider`);
  - e-mail syntax validation.
- **Concurrency**: the runs share the database, and concurrent requests are not modelled. Each handler is one atomic change to the store.
- **Floating point**: amounts are exact reals, so float rounding noise is not modelled.
- **Upload.UploadFile**: the uuid is a parameter and the file write's outcome is a parameter (`writeError`).
- **Message content**: it is optional in the store. A provider reply's content is always a string.
- **ChatAgent.Strip**: it strips only the ASCII and Latin-1 whitespace the model's `IsSpace` lists, not every Unicode space.
- **Factory.Env**: the key and health set stay fixed for the factory's lifetime.
- **Exceptions**: errors other than the provider, AI-call and fallback-scan errors (database failures, for example) are not modelled.
- **TaskManager.Run (retry)**: the recursive retry reloads the same task and user rows in the same session. It is modelled as a run on the retried task and the unchanged user.
