/**
 * The task manager: one background run of a paid task through analysing,
 * clarifying, planning and executing, with a fallback retry after a failed
 * execution. Every status the run commits is recorded, in order, in a trace.
 */
module TaskManager {
  import opened Wrappers
  import opened Models
  import opened Providers
  import opened Factory
  import opened Store
  import Analyzer
  import Planner
  import Executor
  import TaskApi

  /**
   * The effect of a run: the task and user as it leaves them, the messages
   * it saved, the factory's cache, the statuses it committed, an error that
   * escaped it, and how many passes it made.
   */
  datatype RunResult = RunResult(
    task: Task, user: User, saved: seq<Message>, cache: map<string, ProviderKind>,
    trace: seq<TaskStatus>, escaped: Option<string>, attempts: nat)

  /** The retries a task has left: what bounds the run's recursion. */
  function RetriesLeft(t: Task): nat {
    if t.retryCount < 2 then 2 - t.retryCount else 0
  }

  /** A task marked failed with a message. */
  function Fail(t: Task, message: string): (r: Task)
    ensures r.status == Failed && r.errorMessage == Some(message)
    ensures r.(status := t.status, errorMessage := t.errorMessage) == t
    ensures r.id == t.id && r.userId == t.userId && r.description == t.description && r.retryCount == t.retryCount
  {
    t.(status := Failed, errorMessage := Some(message))
  }

  /** The calls a pass makes for the analysis and the plan. */
  function AnalysisCall(kind: ProviderKind, t: Task, u: User): CallSite {
    CallSite(kind, Analyzer.AnalysisRequest(t.description, u.outputLanguage), t.retryCount)
  }

  function PlanningCall(kind: ProviderKind, t: Task, u: User, analysis: JsonObject): CallSite {
    CallSite(kind, Planner.PlanningRequest(t.description, analysis, u.outputLanguage), t.retryCount)
  }

  /** The fallback scan after a failed execution: the task's own backend name is the only one tried. */
  function RetryTried(t: Task): seq<string> {
    EffectiveTried(t.provider.Name(), [t.provider.Name()])
  }

  // ---------------------------------------------------------------------------------------------
  // The lifecycle a run commits
  // ---------------------------------------------------------------------------------------------

  /** The statuses a run may commit one after another. */
  predicate Step(a: TaskStatus, b: TaskStatus) {
    match a
    case Pending => b == Analyzing
    case Analyzing => b == Failed || b == Clarifying || b == Planning
    case Planning => b == Failed || b == Executing
    case Executing => b == Completed || b == Failed
    case Failed => b == Pending
    case _ => false
  }

  /**
   * A trace that starts where a pass starts, moves only along `Step`, ends
   * in `last`, and goes back to pending only straight after a failed execution.
   */
  predicate Lifecycle(trace: seq<TaskStatus>, last: TaskStatus) {
    |trace| >= 1 && trace[0] in {Analyzing, Failed} && trace[|trace| - 1] == last
    && (forall i :: 0 <= i < |trace| - 1 ==> Step(trace[i], trace[i + 1]))
    && (forall i :: 0 <= i < |trace| && trace[i] == Pending ==> i >= 2 && trace[i - 1] == Failed && trace[i - 2] == Executing)
  }

  /** A failed execution, a retry, and the lifecycle of the run that retries. */
  lemma {:induction false} RetriedLifecycle(rest: seq<TaskStatus>, last: TaskStatus)
    requires Lifecycle(rest, last) && rest[0] == Analyzing
    ensures Lifecycle([Analyzing, Planning, Executing, Failed, Pending] + rest, last)
  {
    var tr := [Analyzing, Planning, Executing, Failed, Pending] + rest;
    forall i | 0 <= i < |tr| - 1 ensures Step(tr[i], tr[i + 1]) {
      if i >= 5 {
        assert tr[i] == rest[i - 5] && tr[i + 1] == rest[i - 4];
      }
    }
    forall i | 0 <= i < |tr| && tr[i] == Pending ensures i >= 2 && tr[i - 1] == Failed && tr[i - 2] == Executing {
      if i >= 5 {
        assert rest[i - 5] == Pending;
      }
    }
  }

  /**
   * What every run keeps: the task's identity, the user's ledger, a retry
   * count that grows by one per extra pass and never past two, a final
   * status, the lifecycle, and the rule that only a completed run charges
   * the user and saves a message, one, carrying the task's final cost.
   */
  predicate Settled(u: User, t: Task, r: RunResult) {
    SettledFor(u, t.id, t.userId, t.description, t.retryCount, r)
  }

  predicate SettledFor(u: User, id: nat, userId: nat, description: string, retryCount: nat, r: RunResult) {
    r.task.id == id && r.task.userId == userId && r.task.description == description
    && r.user.id == u.id && TaskApi.Ledger(r.user) == TaskApi.Ledger(u)
    && r.attempts >= 1 && r.task.retryCount == retryCount + r.attempts - 1
    && (retryCount <= 2 ==> r.attempts <= 3 - retryCount)
    && r.task.status in {Completed, Failed, Clarifying}
    && (r.escaped.Some? ==> r.task.status == Failed)
    && (r.task.status == Completed ==>
          r.user == u.(creditsBalance := u.creditsBalance - r.task.finalCost,
                       monthlyUsage := u.monthlyUsage + r.task.finalCost)
          && |r.saved| == 1 && r.saved[0].taskId == id && r.saved[0].cost == r.task.finalCost
          && r.saved[0].content == r.task.resultText && r.saved[0].tokensUsed == r.task.tokensUsed)
    && (r.task.status != Completed ==> r.user == u && r.saved == [])
    && Lifecycle(r.trace, r.task.status)
  }

  // ---------------------------------------------------------------------------------------------
  // The run, phase by phase
  // ---------------------------------------------------------------------------------------------

  /**
   * execute_task for a loaded task and user: build the task's provider (an
   * error fails the task), then analyse.
   */
  function Run(env: Env, ai: AiOracle, parse: string -> Option<JsonObject>, u: User, t: Task,
               cache: map<string, ProviderKind>): RunResult
    decreases RetriesLeft(t), 5
  {
    match ProviderOutcome(env, t.provider.Name())
    case Failure(e) => Stop(u, Fail(t, "Provider error: " + e), cache, [Failed], None)
    case Success(kind) => Analyse(env, ai, parse, u, t, kind, cache[ResolveName(env, t.provider.Name()) := kind])
  }

  /** Analysing with a built provider: an error fails the task, an analysis is carried on with. */
  function Analyse(env: Env, ai: AiOracle, parse: string -> Option<JsonObject>, u: User, t: Task,
                   kind: ProviderKind, cache: map<string, ProviderKind>): RunResult
    decreases RetriesLeft(t), 4
  {
    var analysing := t.(status := Analyzing);
    var analysis := Analyzer.AnalyzeTask(t.description, ai(AnalysisCall(kind, t, u)), parse);
    if analysis.Failure? then
      Stop(u, Fail(analysing, "Analysis failed: " + analysis.error), cache, [Analyzing, Failed], None)
    else AfterAnalysis(env, ai, parse, u, analysing, kind, analysis.value, cache)
  }

  /** After a successful analysis: stop in clarifying when the analysis asks for it, else plan and execute. */
  function AfterAnalysis(env: Env, ai: AiOracle, parse: string -> Option<JsonObject>, u: User, t: Task,
                         kind: ProviderKind, analysis: JsonObject, cache: map<string, ProviderKind>): RunResult
    decreases RetriesLeft(t), 3
  {
    var analysed := t.(analysis := Some(analysis));
    if Truthy(Get(analysis, "needs_clarification", JBool(false))) then
      Stop(u, analysed.(status := Clarifying, clarificationQuestions := Some(Get(analysis, "questions", JArray([])))),
           cache, [Analyzing, Clarifying], None)
    else PlanAndExecute(env, ai, parse, u, analysed, kind, analysis, cache)
  }

  /** Planning: an error fails the task, a plan is stored and executed. */
  function PlanAndExecute(env: Env, ai: AiOracle, parse: string -> Option<JsonObject>, u: User, t: Task,
                          kind: ProviderKind, analysis: JsonObject, cache: map<string, ProviderKind>): RunResult
    decreases RetriesLeft(t), 2
  {
    var planning := t.(status := Planning);
    var plan := Planner.CreatePlan(t.description, analysis, ai(PlanningCall(kind, t, u, analysis)), parse);
    if plan.Failure? then
      Stop(u, Fail(planning, "Planning failed: " + plan.error), cache, [Analyzing, Planning, Failed], None)
    else Execute(env, ai, parse, u, t.(plan := Some(plan.value), status := Executing), kind, plan.value, cache)
  }

  /** The plan a planning pass gets. */
  function PlanOf(u: User, t: Task, kind: ProviderKind, analysis: JsonObject, ai: AiOracle,
                  parse: string -> Option<JsonObject>): Result<JsonObject, string> {
    Planner.CreatePlan(t.description, analysis, ai(PlanningCall(kind, t, u, analysis)), parse)
  }

  /** A planning pass either fails the task or executes the plan it got. */
  lemma PlanAndExecuteUnfolds(env: Env, ai: AiOracle, parse: string -> Option<JsonObject>, u: User, t: Task,
                              kind: ProviderKind, analysis: JsonObject, cache: map<string, ProviderKind>)
    ensures var plan := PlanOf(u, t, kind, analysis, ai, parse);
            PlanAndExecute(env, ai, parse, u, t, kind, analysis, cache)
            == if plan.Failure?
               then Stop(u, Fail(t.(status := Planning), "Planning failed: " + plan.error), cache, [Analyzing, Planning, Failed], None)
               else Execute(env, ai, parse, u, t.(plan := Some(plan.value), status := Executing), kind, plan.value, cache)
  {
  }

  /**
   * Executing a plan for a task marked executing: an answer stores the
   * result, sets the final cost to the answer's cost and charges the user;
   * a raised error fails the task and consults the fallback scan.
   */
  function Execute(env: Env, ai: AiOracle, parse: string -> Option<JsonObject>, u: User, t: Task, kind: ProviderKind,
                   plan: JsonObject, cache: map<string, ProviderKind>): RunResult
    decreases RetriesLeft(t), 1
  {
    match ai(Executor.ExecutionCall(kind, t, u, plan))
    case Answer(response) => Completion(u, t, kind, response, cache)
    case Raised(e) => AfterExecutionFailure(env, ai, parse, u, Fail(t, "Execution failed: " + e), cache)
  }

  /** A pass that ends the run without charging: the task as left, nothing saved. */
  function Stop(u: User, t: Task, cache: map<string, ProviderKind>, trace: seq<TaskStatus>,
                escaped: Option<string>): RunResult {
    RunResult(t, u, [], cache, trace, escaped, 1)
  }

  /** A failed task reset for a retry on the backend the fallback scan found. */
  function Retried(t: Task, k: ProviderKind): (r: Task)
    ensures r.id == t.id && r.userId == t.userId && r.description == t.description
    ensures r.retryCount == t.retryCount + 1 && r.provider.Name() == k.Name() && r.status == Pending
  {
    t.(retryCount := t.retryCount + 1, provider := k.AsProvider(), status := Pending)
  }

  /** A failed pass followed by the run that retries it. */
  function Retry(rest: RunResult): RunResult {
    RunResult(rest.task, rest.user, rest.saved, rest.cache,
              [Analyzing, Planning, Executing, Failed, Pending] + rest.trace, rest.escaped, rest.attempts + 1)
  }

  /**
   * An answered execution: the task stores the result and its final cost,
   * the user is charged that cost, the assistant message is saved.
   */
  function Completion(u: User, t: Task, kind: ProviderKind, response: AIResponse, cache: map<string, ProviderKind>): RunResult {
    var result := Executor.ResultOf(kind, response);
    var done := t.(resultText := Some(result.text), resultFiles := Some(result.files),
                   finalCost := result.totalCost, tokensUsed := result.totalTokens, status := Completed);
    var charged := u.(creditsBalance := u.creditsBalance - done.finalCost,
                      monthlyUsage := u.monthlyUsage + done.finalCost);
    RunResult(done, charged, [Executor.AssistantMessage(t.id, kind, response)], cache,
              [Analyzing, Planning, Executing, Completed], None, 1)
  }

  /**
   * After a failed execution (the task already marked failed): the fallback
   * scan escapes with an error, finds nothing, or finds a backend; a found
   * backend is retried, by running the task again on it, only while fewer
   * than two retries were made.
   */
  function AfterExecutionFailure(env: Env, ai: AiOracle, parse: string -> Option<JsonObject>, u: User, t: Task,
                                 cache: map<string, ProviderKind>): RunResult
    decreases RetriesLeft(t), 0
  {
    var tried := RetryTried(t);
    var scanned := CacheAfterScan(env, FallbackOrder(), tried, cache);
    match FallbackChoice(env, FallbackOrder(), tried)
    case Failure(e) => Stop(u, t, scanned, [Analyzing, Planning, Executing, Failed], Some(e))
    case Success(None) => Stop(u, t, scanned, [Analyzing, Planning, Executing, Failed], None)
    case Success(Some(k)) =>
      if t.retryCount < 2 then
        Retry(Run(env, ai, parse, u, Retried(t, k), scanned))
      else Stop(u, t, scanned, [Analyzing, Planning, Executing, Failed], None)
  }

  // ---------------------------------------------------------------------------------------------
  // What each phase keeps
  // ---------------------------------------------------------------------------------------------

  /** Every run is settled, and exactly the runs whose provider builds start analysing. */
  lemma {:induction false} RunSettled(env: Env, ai: AiOracle, parse: string -> Option<JsonObject>, u: User, t: Task,
                                      cache: map<string, ProviderKind>)
    ensures var r := Run(env, ai, parse, u, t, cache);
            Settled(u, t, r) && (ProviderOutcome(env, t.provider.Name()).Success? <==> r.trace[0] == Analyzing)
    decreases RetriesLeft(t), 6
  {
    match ProviderOutcome(env, t.provider.Name())
    case Failure(e) =>
      EndingLifecycles();
      StopSettled(u, t, Fail(t, "Provider error: " + e), cache, [Failed], None);
    case Success(kind) => AnalyseSettled(env, ai, parse, u, t, kind, cache[ResolveName(env, t.provider.Name()) := kind]);
  }

  /** An analysing run is settled; a failed analysis ends it at once. */
  lemma {:induction false} AnalyseSettled(env: Env, ai: AiOracle, parse: string -> Option<JsonObject>, u: User, t: Task,
                                          kind: ProviderKind, cache: map<string, ProviderKind>)
    ensures var r := Analyse(env, ai, parse, u, t, kind, cache);
            Settled(u, t, r) && r.trace[0] == Analyzing
            && (var analysis := Analyzer.AnalyzeTask(t.description, ai(AnalysisCall(kind, t, u)), parse);
                analysis.Failure? ==>
                  r.trace == [Analyzing, Failed] && r.task.status == Failed
                  && r.task.errorMessage == Some("Analysis failed: " + analysis.error)
                  && r.attempts == 1 && r.escaped.None?)
    decreases RetriesLeft(t), 5
  {
    var analysis := Analyzer.AnalyzeTask(t.description, ai(AnalysisCall(kind, t, u)), parse);
    if analysis.Success? {
      AfterAnalysisSettled(env, ai, parse, u, t.(status := Analyzing), kind, analysis.value, cache);
    } else {
      EndingLifecycles();
      StopSettled(u, t, Fail(t.(status := Analyzing), "Analysis failed: " + analysis.error), cache, [Analyzing, Failed], None);
    }
  }

  /**
   * After an analysis the run is settled; it stops in clarifying, with the
   * analysis's questions stored, exactly when the analysis asks for it.
   */
  lemma {:induction false} AfterAnalysisSettled(env: Env, ai: AiOracle, parse: string -> Option<JsonObject>, u: User,
                                                t: Task, kind: ProviderKind, analysis: JsonObject,
                                                cache: map<string, ProviderKind>)
    ensures var r := AfterAnalysis(env, ai, parse, u, t, kind, analysis, cache);
            Settled(u, t, r) && r.trace[0] == Analyzing
            && (Truthy(Get(analysis, "needs_clarification", JBool(false))) <==> r.trace == [Analyzing, Clarifying])
            && (r.trace == [Analyzing, Clarifying] ==>
                  r.task == t.(analysis := Some(analysis), status := Clarifying,
                               clarificationQuestions := Some(Get(analysis, "questions", JArray([])))))
    decreases RetriesLeft(t), 4
  {
    if !Truthy(Get(analysis, "needs_clarification", JBool(false))) {
      PlanAndExecuteSettled(env, ai, parse, u, t.(analysis := Some(analysis)), kind, analysis, cache);
    } else {
      EndingLifecycles();
      StopSettled(u, t, t.(analysis := Some(analysis), status := Clarifying,
                            clarificationQuestions := Some(Get(analysis, "questions", JArray([])))),
                  cache, [Analyzing, Clarifying], None);
    }
  }

  /**
   * A planning run is settled and its trace goes from analysing to planning;
   * a failed planning ends it at once, with the planner's error.
   */
  lemma {:induction false} PlanAndExecuteSettled(env: Env, ai: AiOracle, parse: string -> Option<JsonObject>, u: User,
                                                 t: Task, kind: ProviderKind, analysis: JsonObject,
                                                 cache: map<string, ProviderKind>)
    ensures var r := PlanAndExecute(env, ai, parse, u, t, kind, analysis, cache);
            var plan := PlanOf(u, t, kind, analysis, ai, parse);
            Settled(u, t, r) && |r.trace| >= 3 && r.trace[0] == Analyzing && r.trace[1] == Planning
            && (plan.Failure? ==>
                  r.trace == [Analyzing, Planning, Failed] && r.task.status == Failed
                  && r.task.errorMessage == Some("Planning failed: " + plan.error)
                  && r.attempts == 1 && r.escaped.None?)
    decreases RetriesLeft(t), 3
  {
    var plan := PlanOf(u, t, kind, analysis, ai, parse);
    PlanAndExecuteUnfolds(env, ai, parse, u, t, kind, analysis, cache);
    if plan.Success? {
      ExecuteSettled(env, ai, parse, u, t.(plan := Some(plan.value), status := Executing), kind, plan.value, cache);
    } else {
      EndingLifecycles();
      StopSettled(u, t, Fail(t.(status := Planning), "Planning failed: " + plan.error), cache,
                  [Analyzing, Planning, Failed], None);
    }
  }

  /**
   * An executing run is settled; an answered execution completes it in
   * one pass at the answer's cost, a raised one fails that pass.
   */
  lemma {:induction false} ExecuteSettled(env: Env, ai: AiOracle, parse: string -> Option<JsonObject>, u: User, t: Task,
                                          kind: ProviderKind, plan: JsonObject, cache: map<string, ProviderKind>)
    ensures var r := Execute(env, ai, parse, u, t, kind, plan, cache);
            var outcome := ai(Executor.ExecutionCall(kind, t, u, plan));
            Settled(u, t, r) && |r.trace| >= 4 && r.trace[0] == Analyzing && r.trace[1] == Planning && r.trace[2] == Executing
            && (outcome.Answer? ==> r.attempts == 1 && r.task.status == Completed
                                    && r.task.finalCost == outcome.response.cost)
            && (outcome.Raised? ==> r.trace[3] == Failed)
            && (outcome.Raised? && r.attempts == 1 ==>
                  r.task == Fail(t, "Execution failed: " + outcome.error) && r.user == u
                  && r.trace == [Analyzing, Planning, Executing, Failed])
    decreases RetriesLeft(t), 2
  {
    match ai(Executor.ExecutionCall(kind, t, u, plan))
    case Answer(response) => CompletionSettled(u, t, kind, response, cache);
    case Raised(e) => AfterExecutionFailureSettled(env, ai, parse, u, Fail(t, "Execution failed: " + e), cache);
  }

  /** The traces of the passes that end a run in one go. */
  lemma EndingLifecycles()
    ensures Lifecycle([Failed], Failed) && Lifecycle([Analyzing, Failed], Failed)
    ensures Lifecycle([Analyzing, Clarifying], Clarifying) && Lifecycle([Analyzing, Planning, Failed], Failed)
    ensures Lifecycle([Analyzing, Planning, Executing, Failed], Failed)
  {
    assert [Failed][0] == Failed;
  }

  /** A pass that stops in a failed or clarifying task, on a lifecycle, settles the run in one pass. */
  lemma StopSettled(u: User, t0: Task, t: Task, cache: map<string, ProviderKind>, trace: seq<TaskStatus>,
                    escaped: Option<string>)
    requires t.id == t0.id && t.userId == t0.userId && t.description == t0.description && t.retryCount == t0.retryCount
    requires t.status in {Failed, Clarifying} && (escaped.Some? ==> t.status == Failed) && Lifecycle(trace, t.status)
    ensures Settled(u, t0, Stop(u, t, cache, trace, escaped))
  {
  }

  /** A completed pass charges the user the answer's cost and saves one message carrying it. */
  lemma CompletionSettled(u: User, t: Task, kind: ProviderKind, response: AIResponse, cache: map<string, ProviderKind>)
    ensures var r := Completion(u, t, kind, response, cache);
            Settled(u, t, r) && r.trace == [Analyzing, Planning, Executing, Completed]
            && r.task.finalCost == response.cost && r.task.resultText == Some(response.content)
            && r.task.resultFiles == Some([]) && r.task.tokensUsed == response.tokensUsed
            && r.saved == [Executor.AssistantMessage(t.id, kind, response)] && r.attempts == 1
  {
    var r := Completion(u, t, kind, response, cache);
    assert Lifecycle(r.trace, Completed);
  }

  /** The run that retries a failed execution settles the whole run, behind the failed pass's trace. */
  lemma RetrySettled(u: User, t: Task, retried: Task, rest: RunResult)
    requires t.retryCount < 2 && retried.id == t.id && retried.userId == t.userId
    requires retried.description == t.description && retried.retryCount == t.retryCount + 1
    requires Settled(u, retried, rest) && rest.trace[0] == Analyzing
    ensures var r := Retry(rest);
            Settled(u, t, r) && |r.trace| >= 4 && r.trace[0] == Analyzing && r.trace[1] == Planning
            && r.trace[2] == Executing && r.trace[3] == Failed
            && r.attempts > 1 && r.escaped == rest.escaped
  {
    RetriedLifecycle(rest.trace, rest.task.status);
  }

  /**
   * After a failed execution the run is settled; the task runs again
   * exactly when the fallback scan finds a backend and fewer than two
   * retries were made, and otherwise an error escapes exactly when the
   * scan raises, with the scan's error.
   */
  lemma {:induction false} AfterExecutionFailureSettled(env: Env, ai: AiOracle, parse: string -> Option<JsonObject>,
                                                        u: User, t: Task, cache: map<string, ProviderKind>)
    requires t.status == Failed
    ensures var r := AfterExecutionFailure(env, ai, parse, u, t, cache);
            var choice := FallbackChoice(env, FallbackOrder(), RetryTried(t));
            Settled(u, t, r) && |r.trace| >= 4 && r.trace[0] == Analyzing && r.trace[1] == Planning
            && r.trace[2] == Executing && r.trace[3] == Failed
            && (r.attempts > 1 <==> t.retryCount < 2 && choice.Success? && choice.value.Some?)
            && (r.attempts == 1 ==> r.escaped == if choice.Failure? then Some(choice.error) else None)
            && (r.attempts == 1 ==> r.task == t && r.user == u && r.trace == [Analyzing, Planning, Executing, Failed])
    decreases RetriesLeft(t), 1
  {
    var tried := RetryTried(t);
    var scanned := CacheAfterScan(env, FallbackOrder(), tried, cache);
    var failed := [Analyzing, Planning, Executing, Failed];
    EndingLifecycles();
    var r := AfterExecutionFailure(env, ai, parse, u, t, cache);
    match FallbackChoice(env, FallbackOrder(), tried)
    case Failure(e) =>
      assert r == Stop(u, t, scanned, failed, Some(e));
      StopSettled(u, t, t, scanned, failed, Some(e));
    case Success(None) =>
      assert r == Stop(u, t, scanned, failed, None);
      StopSettled(u, t, t, scanned, failed, None);
    case Success(Some(k)) =>
      if t.retryCount >= 2 {
        assert r == Stop(u, t, scanned, failed, None);
        StopSettled(u, t, t, scanned, failed, None);
      } else {
        RetriedRunSettled(env, ai, parse, u, t, cache, k);
      }
  }

  /** The retry after a failed execution settles the run and makes more than one pass. */
  lemma {:induction false} RetriedRunSettled(env: Env, ai: AiOracle, parse: string -> Option<JsonObject>,
                                             u: User, t: Task, cache: map<string, ProviderKind>, k: ProviderKind)
    requires t.status == Failed && t.retryCount < 2 && FallbackChoice(env, FallbackOrder(), RetryTried(t)) == Success(Some(k))
    ensures var r := AfterExecutionFailure(env, ai, parse, u, t, cache);
            Settled(u, t, r) && |r.trace| >= 4 && r.trace[0] == Analyzing && r.trace[1] == Planning
            && r.trace[2] == Executing && r.trace[3] == Failed
            && r.attempts > 1
    decreases RetriesLeft(t), 0
  {
    var tried := RetryTried(t);
    var scanned := CacheAfterScan(env, FallbackOrder(), tried, cache);
    var retried := Retried(t, k);
    FoundBackendBuilds(env, tried, k);
    RunSettled(env, ai, parse, u, retried, scanned);
    var rest := Run(env, ai, parse, u, retried, scanned);
    RetryUnfolds(env, ai, parse, u, t, cache, k);
    RetrySettled(u, t, retried, rest);
  }

  /** After a failed execution with a backend found and retries left, the run is the retry. */
  lemma RetryUnfolds(env: Env, ai: AiOracle, parse: string -> Option<JsonObject>,
                     u: User, t: Task, cache: map<string, ProviderKind>, k: ProviderKind)
    requires t.retryCount < 2 && FallbackChoice(env, FallbackOrder(), RetryTried(t)) == Success(Some(k))
    ensures AfterExecutionFailure(env, ai, parse, u, t, cache)
            == Retry(Run(env, ai, parse, u, Retried(t, k), CacheAfterScan(env, FallbackOrder(), RetryTried(t), cache)))
  {
  }

  /** What execute_task does with the stored rows. */
  datatype Execution = NoSuchTask | NoSuchUser(task: Task) | Ran(result: RunResult)

  function ExecuteSpec(env: Env, ai: AiOracle, parse: string -> Option<JsonObject>, users: map<nat, User>,
                       tasks: map<nat, Task>, cache: map<string, ProviderKind>, taskId: nat): (e: Execution)
    ensures e.NoSuchTask? <==> taskId !in tasks
    ensures e.NoSuchUser? <==> taskId in tasks && tasks[taskId].userId !in users
    ensures e.NoSuchUser? ==> e.task == Fail(tasks[taskId], "User not found")
    ensures e.Ran? ==> Settled(users[tasks[taskId].userId], tasks[taskId], e.result)
  {
    if taskId !in tasks then NoSuchTask
    else if tasks[taskId].userId !in users then NoSuchUser(Fail(tasks[taskId], "User not found"))
    else
      RunSettled(env, ai, parse, users[tasks[taskId].userId], tasks[taskId], cache);
      Ran(Run(env, ai, parse, users[tasks[taskId].userId], tasks[taskId], cache))
  }

  /** The handler of execute_task_async: an escaped error marks the task failed with that error. */
  function Recover(r: RunResult): (r': RunResult)
    ensures r'.escaped.None?
    ensures r.escaped.Some? ==> r'.task == Fail(r.task, r.escaped.value) && r'.trace == r.trace + [Failed]
    ensures r.escaped.None? ==> r' == r
  {
    if r.escaped.Some? then r.(task := Fail(r.task, r.escaped.value), trace := r.trace + [Failed], escaped := None)
    else r
  }

  // ---------------------------------------------------------------------------------------------
  // Properties of the run
  // ---------------------------------------------------------------------------------------------

  /** Clarifying and completed end a run: nothing is committed after them. */
  lemma ClarifyingAndCompletedAreFinal(env: Env, ai: AiOracle, parse: string -> Option<JsonObject>, u: User, t: Task,
                                       cache: map<string, ProviderKind>)
    ensures var r := Run(env, ai, parse, u, t, cache);
            forall i :: 0 <= i < |r.trace| && r.trace[i] in {Clarifying, Completed} ==> i == |r.trace| - 1
  {
    RunSettled(env, ai, parse, u, t, cache);
    var trace := Run(env, ai, parse, u, t, cache).trace;
    forall i | 0 <= i < |trace| - 1 ensures trace[i] !in {Clarifying, Completed} {
      assert Step(trace[i], trace[i + 1]);
    }
  }

  /**
   * Confirming and then completing a task charges the user twice: once for
   * the estimate at confirmation and again for the final cost.
   */
  lemma ConfirmThenCompleteChargesTwice(env: Env, ai: AiOracle, parse: string -> Option<JsonObject>, u: User, t: Task,
                                        cache: map<string, ProviderKind>)
    requires TaskApi.ConfirmOutcome(u, t).Success?
    ensures var (u1, t1) := TaskApi.ConfirmOutcome(u, t).value;
            var r := Run(env, ai, parse, u1, t1, cache);
            r.task.status == Completed ==>
              r.user.creditsBalance == u.creditsBalance - t.estimatedCost - r.task.finalCost
  {
    var (u1, t1) := TaskApi.ConfirmOutcome(u, t).value;
    RunSettled(env, ai, parse, u1, t1, cache);
  }

  /** After the handler of execute_task_async the task rests in a final status and nothing escapes. */
  lemma RecoveredRunIsSettled(env: Env, ai: AiOracle, parse: string -> Option<JsonObject>, u: User, t: Task,
                              cache: map<string, ProviderKind>)
    ensures var r := Run(env, ai, parse, u, t, cache);
            var s := Recover(r);
            s.escaped.None? && s.task.status in {Completed, Failed, Clarifying}
            && (r.escaped.Some? ==> s.task.errorMessage == r.escaped && |s.trace| >= 2
                                    && s.trace[|s.trace| - 1] == Failed && s.trace[|s.trace| - 2] == Failed)
  {
    RunSettled(env, ai, parse, u, t, cache);
  }

  // ---------------------------------------------------------------------------------------------
  // The run against the store
  // ---------------------------------------------------------------------------------------------

  /**
   * execute_task: load the task (a missing task is a no-op) and its user (a
   * missing user fails the task), then run.
   */
  method ExecuteTask(db: Store, factory: ProviderFactory, ai: AiOracle, parse: string -> Option<JsonObject>, taskId: nat)
    returns (trace: seq<TaskStatus>, escaped: Option<string>)
    requires db.Valid() && factory.Valid()
    modifies db, factory
    ensures db.Valid() && factory.Valid()
    ensures db.files == old(db.files) && db.payments == old(db.payments) && db.nextTaskId == old(db.nextTaskId)
    ensures match ExecuteSpec(factory.env, ai, parse, old(db.users), old(db.tasks), old(factory.instances), taskId)
            case NoSuchTask =>
              db.tasks == old(db.tasks) && db.users == old(db.users) && db.messages == old(db.messages)
              && factory.instances == old(factory.instances) && trace == [] && escaped.None?
            case NoSuchUser(t) =>
              db.tasks == old(db.tasks)[taskId := t] && db.users == old(db.users) && db.messages == old(db.messages)
              && factory.instances == old(factory.instances) && trace == [Failed] && escaped.None?
            case Ran(r) =>
              db.tasks == old(db.tasks)[taskId := r.task] && db.users == old(db.users)[r.task.userId := r.user]
              && db.messages == old(db.messages) + r.saved && factory.instances == r.cache
              && trace == r.trace && escaped == r.escaped
  {
    if taskId !in db.tasks {
      return [], None;
    }
    var task := db.tasks[taskId];
    if task.userId !in db.users {
      db.PutTask(Fail(task, "User not found"));
      return [Failed], None;
    }
    trace, escaped := RunTask(db, factory, ai, parse, db.users[task.userId], task);
  }

  /** The run for a loaded task and user: build the provider, then analyse. */
  method RunTask(db: Store, factory: ProviderFactory, ai: AiOracle, parse: string -> Option<JsonObject>,
                 user: User, task: Task)
    returns (trace: seq<TaskStatus>, escaped: Option<string>)
    requires db.Valid() && factory.Valid() && task.id in db.tasks && db.tasks[task.id] == task
    requires user.id in db.users && db.users[user.id] == user && task.userId == user.id
    modifies db, factory
    ensures db.Valid() && factory.Valid()
    ensures var r := Run(factory.env, ai, parse, user, task, old(factory.instances));
            db.tasks == old(db.tasks)[task.id := r.task] && db.users == old(db.users)[user.id := r.user]
            && db.messages == old(db.messages) + r.saved && factory.instances == r.cache
            && trace == r.trace && escaped == r.escaped
    ensures db.files == old(db.files) && db.payments == old(db.payments) && db.nextTaskId == old(db.nextTaskId)
    decreases RetriesLeft(task), 5
  {
    ghost var spec := Run(factory.env, ai, parse, user, task, factory.instances);
    var provider := factory.GetProvider(task.provider.Name());
    if provider.Failure? {
      assert spec == Stop(user, Fail(task, "Provider error: " + provider.error), factory.instances, [Failed], None);
      db.PutTask(Fail(task, "Provider error: " + provider.error));
      WrittenBack(db.users, user.id);
      return [Failed], None;
    }
    assert spec == Analyse(factory.env, ai, parse, user, task, provider.value, factory.instances);
    trace, escaped := AnalysePass(db, factory, ai, parse, user, task, provider.value);
  }

  /** Analysing with a built provider, committing the analysing status first. */
  method AnalysePass(db: Store, factory: ProviderFactory, ai: AiOracle, parse: string -> Option<JsonObject>,
                     user: User, task: Task, kind: ProviderKind)
    returns (trace: seq<TaskStatus>, escaped: Option<string>)
    requires db.Valid() && factory.Valid() && task.id in db.tasks
    requires user.id in db.users && db.users[user.id] == user && task.userId == user.id
    modifies db, factory
    ensures db.Valid() && factory.Valid()
    ensures var r := Analyse(factory.env, ai, parse, user, task, kind, old(factory.instances));
            db.tasks == old(db.tasks)[task.id := r.task] && db.users == old(db.users)[user.id := r.user]
            && db.messages == old(db.messages) + r.saved && factory.instances == r.cache
            && trace == r.trace && escaped == r.escaped
    ensures db.files == old(db.files) && db.payments == old(db.payments) && db.nextTaskId == old(db.nextTaskId)
    decreases RetriesLeft(task), 4
  {
    ghost var spec := Analyse(factory.env, ai, parse, user, task, kind, factory.instances);
    ghost var tasks0 := db.tasks;
    var t := task.(status := Analyzing);
    db.PutTask(t);
    Rewritten(tasks0, task.id, t, spec.task);
    var analysis := Analyzer.AnalyzeTask(t.description, ai(AnalysisCall(kind, task, user)), parse);
    if analysis.Failure? {
      assert spec == Stop(user, Fail(t, "Analysis failed: " + analysis.error), factory.instances, [Analyzing, Failed], None);
      db.PutTask(Fail(t, "Analysis failed: " + analysis.error));
      WrittenBack(db.users, user.id);
      return [Analyzing, Failed], None;
    }
    assert spec == AfterAnalysis(factory.env, ai, parse, user, t, kind, analysis.value, factory.instances);
    trace, escaped := AfterAnalysisPass(db, factory, ai, parse, user, t, kind, analysis.value);
  }

  /** After a successful analysis: store it, then stop in clarifying or go on to plan and execute. */
  method AfterAnalysisPass(db: Store, factory: ProviderFactory, ai: AiOracle, parse: string -> Option<JsonObject>,
                           user: User, task: Task, kind: ProviderKind, analysis: JsonObject)
    returns (trace: seq<TaskStatus>, escaped: Option<string>)
    requires db.Valid() && factory.Valid() && task.id in db.tasks
    requires user.id in db.users && db.users[user.id] == user && task.userId == user.id
    modifies db, factory
    ensures db.Valid() && factory.Valid()
    ensures var r := AfterAnalysis(factory.env, ai, parse, user, task, kind, analysis, old(factory.instances));
            db.tasks == old(db.tasks)[task.id := r.task] && db.users == old(db.users)[user.id := r.user]
            && db.messages == old(db.messages) + r.saved && factory.instances == r.cache
            && trace == r.trace && escaped == r.escaped
    ensures db.files == old(db.files) && db.payments == old(db.payments) && db.nextTaskId == old(db.nextTaskId)
    decreases RetriesLeft(task), 3
  {
    ghost var spec := AfterAnalysis(factory.env, ai, parse, user, task, kind, analysis, factory.instances);
    ghost var tasks0 := db.tasks;
    var t := task.(analysis := Some(analysis));
    db.PutTask(t);
    Rewritten(tasks0, task.id, t, spec.task);
    if Truthy(Get(analysis, "needs_clarification", JBool(false))) {
      assert spec == Stop(user, t.(status := Clarifying, clarificationQuestions := Some(Get(analysis, "questions", JArray([])))),
                          factory.instances, [Analyzing, Clarifying], None);
      db.PutTask(t.(status := Clarifying, clarificationQuestions := Some(Get(analysis, "questions", JArray([])))));
      WrittenBack(db.users, user.id);
      return [Analyzing, Clarifying], None;
    }
    assert spec == PlanAndExecute(factory.env, ai, parse, user, t, kind, analysis, factory.instances);
    trace, escaped := PlanAndExecutePass(db, factory, ai, parse, user, t, kind, analysis);
  }

  /** Planning, committing the planning status first and then the plan. */
  method PlanAndExecutePass(db: Store, factory: ProviderFactory, ai: AiOracle, parse: string -> Option<JsonObject>,
                            user: User, task: Task, kind: ProviderKind, analysis: JsonObject)
    returns (trace: seq<TaskStatus>, escaped: Option<string>)
    requires db.Valid() && factory.Valid() && task.id in db.tasks
    requires user.id in db.users && db.users[user.id] == user && task.userId == user.id
    modifies db, factory
    ensures db.Valid() && factory.Valid()
    ensures var r := PlanAndExecute(factory.env, ai, parse, user, task, kind, analysis, old(factory.instances));
            db.tasks == old(db.tasks)[task.id := r.task] && db.users == old(db.users)[user.id := r.user]
            && db.messages == old(db.messages) + r.saved && factory.instances == r.cache
            && trace == r.trace && escaped == r.escaped
    ensures db.files == old(db.files) && db.payments == old(db.payments) && db.nextTaskId == old(db.nextTaskId)
    decreases RetriesLeft(task), 2
  {
    ghost var spec := PlanAndExecute(factory.env, ai, parse, user, task, kind, analysis, factory.instances);
    ghost var tasks0 := db.tasks;
    var t := task.(status := Planning);
    db.PutTask(t);
    var plan := Planner.CreatePlan(t.description, analysis, ai(PlanningCall(kind, task, user, analysis)), parse);
    PlanAndExecuteUnfolds(factory.env, ai, parse, user, task, kind, analysis, factory.instances);
    assert plan == PlanOf(user, task, kind, analysis, ai, parse);
    if plan.Failure? {
      db.PutTask(Fail(t, "Planning failed: " + plan.error));
      Rewritten(tasks0, task.id, t, spec.task);
      WrittenBack(db.users, user.id);
      return [Analyzing, Planning, Failed], None;
    }
    t := task.(plan := Some(plan.value), status := Executing);
    db.PutTask(task.(status := Planning, plan := Some(plan.value)));
    db.PutTask(t);
    Rewritten(tasks0, task.id, task.(status := Planning), task.(status := Planning, plan := Some(plan.value)));
    Rewritten(tasks0, task.id, task.(status := Planning, plan := Some(plan.value)), t);
    Rewritten(tasks0, task.id, t, spec.task);
    trace, escaped := ExecutePass(db, factory, ai, parse, user, t, kind, plan.value);
  }

  /** Executing the plan of a task marked executing, and recording the outcome. */
  method ExecutePass(db: Store, factory: ProviderFactory, ai: AiOracle, parse: string -> Option<JsonObject>,
                     user: User, task: Task, kind: ProviderKind, plan: JsonObject)
    returns (trace: seq<TaskStatus>, escaped: Option<string>)
    requires db.Valid() && factory.Valid() && task.id in db.tasks && db.tasks[task.id] == task
    requires user.id in db.users && db.users[user.id] == user && task.userId == user.id
    modifies db, factory
    ensures db.Valid() && factory.Valid()
    ensures var r := Execute(factory.env, ai, parse, user, task, kind, plan, old(factory.instances));
            db.tasks == old(db.tasks)[task.id := r.task] && db.users == old(db.users)[user.id := r.user]
            && db.messages == old(db.messages) + r.saved && factory.instances == r.cache
            && trace == r.trace && escaped == r.escaped
    ensures db.files == old(db.files) && db.payments == old(db.payments) && db.nextTaskId == old(db.nextTaskId)
    decreases RetriesLeft(task), 1
  {
    ghost var spec := Execute(factory.env, ai, parse, user, task, kind, plan, factory.instances);
    ghost var tasks0 := db.tasks;
    var result := Executor.ExecutePlan(db, ai, kind, task, user, plan);
    if result.Success? {
      var res := result.value;
      var t := task.(resultText := Some(res.text), resultFiles := Some(res.files), finalCost := res.totalCost,
                     tokensUsed := res.totalTokens);
      var u := user.(creditsBalance := user.creditsBalance - t.finalCost, monthlyUsage := user.monthlyUsage + t.finalCost);
      t := t.(status := Completed);
      assert spec == Completion(user, task, kind, ai(Executor.ExecutionCall(kind, task, user, plan)).response, factory.instances);
      assert spec.task == t && spec.user == u;
      db.PutTask(t);
      db.PutUser(u);
      return [Analyzing, Planning, Executing, Completed], None;
    }
    var t := Fail(task, "Execution failed: " + result.error);
    db.PutTask(t);
    Rewritten(tasks0, task.id, t, spec.task);
    WrittenBack(db.users, user.id);
    assert spec == AfterExecutionFailure(factory.env, ai, parse, user, t, factory.instances);
    trace, escaped := FallbackPass(db, factory, ai, parse, user, t);
  }

  /**
   * After a failed execution: scan for a fallback; on a find with retries
   * left, reset the task for a retry on it and run execute_task again.
   */
  method FallbackPass(db: Store, factory: ProviderFactory, ai: AiOracle, parse: string -> Option<JsonObject>,
                      user: User, task: Task)
    returns (trace: seq<TaskStatus>, escaped: Option<string>)
    requires db.Valid() && factory.Valid() && task.id in db.tasks && db.tasks[task.id] == task && task.status == Failed
    requires user.id in db.users && db.users[user.id] == user && task.userId == user.id
    modifies db, factory
    ensures db.Valid() && factory.Valid()
    ensures var r := AfterExecutionFailure(factory.env, ai, parse, user, task, old(factory.instances));
            db.tasks == old(db.tasks)[task.id := r.task] && db.users == old(db.users)[user.id := r.user]
            && db.messages == old(db.messages) + r.saved && factory.instances == r.cache
            && trace == r.trace && escaped == r.escaped
    ensures db.files == old(db.files) && db.payments == old(db.payments) && db.nextTaskId == old(db.nextTaskId)
    decreases RetriesLeft(task), 0
  {
    ghost var spec := AfterExecutionFailure(factory.env, ai, parse, user, task, factory.instances);
    var fallback, _ := factory.GetFallbackProvider(task.provider.Name(), [task.provider.Name()]);
    if fallback.Failure? || fallback.value.None? || task.retryCount >= 2 {
      WrittenBack(db.tasks, task.id);
      WrittenBack(db.users, user.id);
      assert spec.saved == [] && db.messages == db.messages + spec.saved;
      trace := [Analyzing, Planning, Executing, Failed];
      escaped := if fallback.Failure? then Some(fallback.error) else None;
      return;
    }
    var retried := Retried(task, fallback.value.value);
    ghost var tasks0 := db.tasks;
    db.PutTask(retried);
    ghost var rest := Run(factory.env, ai, parse, user, retried, factory.instances);
    RetryUnfolds(factory.env, ai, parse, user, task, old(factory.instances), fallback.value.value);
    var more;
    Rewritten(tasks0, task.id, retried, spec.task);
    more, escaped := RunTask(db, factory, ai, parse, user, retried);
    trace := [Analyzing, Planning, Executing, Failed, Pending] + more;
  }

  /** execute_task_async: the run, then the handler for an error that escaped it. */
  method ExecuteTaskAsync(db: Store, factory: ProviderFactory, ai: AiOracle, parse: string -> Option<JsonObject>, taskId: nat)
    returns (trace: seq<TaskStatus>)
    requires db.Valid() && factory.Valid()
    modifies db, factory
    ensures db.Valid() && factory.Valid()
    ensures db.files == old(db.files) && db.payments == old(db.payments) && db.nextTaskId == old(db.nextTaskId)
    ensures match ExecuteSpec(factory.env, ai, parse, old(db.users), old(db.tasks), old(factory.instances), taskId)
            case NoSuchTask =>
              db.tasks == old(db.tasks) && db.users == old(db.users) && db.messages == old(db.messages)
              && factory.instances == old(factory.instances) && trace == []
            case NoSuchUser(t) =>
              db.tasks == old(db.tasks)[taskId := t] && db.users == old(db.users) && db.messages == old(db.messages)
              && factory.instances == old(factory.instances) && trace == [Failed]
            case Ran(r) =>
              db.tasks == old(db.tasks)[taskId := Recover(r).task] && db.users == old(db.users)[r.task.userId := r.user]
              && db.messages == old(db.messages) + r.saved && factory.instances == r.cache && trace == Recover(r).trace
  {
    var escaped;
    trace, escaped := ExecuteTask(db, factory, ai, parse, taskId);
    if escaped.Some? && taskId in db.tasks {
      db.PutTask(Fail(db.tasks[taskId], escaped.value));
      trace := trace + [Failed];
    }
  }
}
