/**
 * The task endpoints: create (priced, awaiting payment), confirm (debits
 * the estimate), cancel (refunds the estimate when nothing was charged for
 * execution), delete, and the owner-scoped reads. Each guard is a pure
 * function of the rows involved; each handler applies it to the store.
 */
module TaskApi {
  import opened Wrappers
  import opened Models
  import opened Schemas
  import opened Pricing
  import opened Store

  const TaskNotFound: ApiError := ApiError(404, "Task not found")
  const ValidationFailed: ApiError := ApiError(422, "Validation error")
  const MonthlyLimitExceeded: ApiError :=
    ApiError(402, "Monthly limit exceeded. Upgrade your plan or wait for next month.")
  const InsufficientCredits: ApiError := ApiError(402, "Insufficient credits")
  const AlreadyFinished: ApiError := ApiError(400, "Task already finished")
  const CannotDeleteRunning: ApiError := ApiError(400, "Cannot delete running task. Cancel it first.")

  /** The sum that confirm, cancel, completion and chat all leave unchanged. */
  function Ledger(u: User): real {
    u.creditsBalance + u.monthlyUsage
  }

  /** The price quoted for a new task. */
  function QuotedPrice(data: TaskCreate): real {
    CalculateTaskPrice(data.description, data.urgency, data.provider.Name(), EstimateTokens(data.description)).totalPrice
  }

  /** The free plan's monthly allowance would be exceeded by this estimate. */
  predicate OverMonthlyLimit(u: User, estimate: real) {
    u.plan == Free && u.monthlyUsage + estimate > u.monthlyLimit
  }

  /** Creation: validation, the two credit checks, then a task awaiting payment (its id is assigned on insert). */
  function CreateOutcome(u: User, data: TaskCreate): (r: Result<Task, ApiError>)
    ensures !ValidTaskCreate(data) ==> r == Failure(ValidationFailed)
    ensures ValidTaskCreate(data) && r.Failure? ==> r.error.code == 402
    ensures r.Success? <==> ValidTaskCreate(data) && !OverMonthlyLimit(u, QuotedPrice(data))
                            && u.creditsBalance >= QuotedPrice(data)
    ensures r.Success? ==> r.value.status == AwaitingPayment && r.value.estimatedCost == QuotedPrice(data)
                           && r.value.userId == u.id && r.value.description == data.description
                           && r.value.urgency == data.urgency && r.value.provider == data.provider
                           && r.value.finalCost == 0.0 && r.value.retryCount == 0
  {
    if !ValidTaskCreate(data) then Failure(ValidationFailed)
    else
      var estimate := QuotedPrice(data);
      if OverMonthlyLimit(u, estimate) then Failure(MonthlyLimitExceeded)
      else if u.creditsBalance < estimate then Failure(InsufficientCredits)
      else Success(NewTask(0, u.id, data.description).(urgency := data.urgency, provider := data.provider,
                                                       status := AwaitingPayment, estimatedCost := estimate))
  }

  /** Every accepted task is quoted 1.50, whatever its urgency, provider or length. */
  lemma CreatedTasksCostFlat(u: User, data: TaskCreate)
    requires CreateOutcome(u, data).Success?
    ensures CreateOutcome(u, data).value.estimatedCost == 1.5
  {
    AcceptedTasksPriceFlat(data, data.provider.Name());
  }

  /** Confirmation: only from awaiting payment, only with enough credits; the estimate moves from balance to usage. */
  function ConfirmOutcome(u: User, t: Task): (r: Result<(User, Task), ApiError>)
    ensures t.status != AwaitingPayment ==>
              r == Failure(ApiError(400, "Task status is " + StatusName(t.status) + ", expected awaiting_payment"))
    ensures t.status == AwaitingPayment && u.creditsBalance < t.estimatedCost ==> r == Failure(InsufficientCredits)
    ensures r.Success? ==> r.value.0.creditsBalance == u.creditsBalance - t.estimatedCost
                           && r.value.0.monthlyUsage == u.monthlyUsage + t.estimatedCost
                           && r.value.1 == t.(status := Pending)
    ensures r.Success? <==> t.status == AwaitingPayment && u.creditsBalance >= t.estimatedCost
  {
    if t.status != AwaitingPayment then
      Failure(ApiError(400, "Task status is " + StatusName(t.status) + ", expected awaiting_payment"))
    else if u.creditsBalance < t.estimatedCost then Failure(InsufficientCredits)
    else Success((u.(creditsBalance := u.creditsBalance - t.estimatedCost,
                     monthlyUsage := u.monthlyUsage + t.estimatedCost),
                  t.(status := Pending)))
  }

  /** A confirmed task cannot be confirmed again. */
  lemma ConfirmOnlyOnce(u: User, t: Task)
    requires ConfirmOutcome(u, t).Success?
    ensures var (u1, t1) := ConfirmOutcome(u, t).value;
            ConfirmOutcome(u1, t1) == Failure(ApiError(400, "Task status is " + StatusName(Pending) + ", expected awaiting_payment"))
  {
  }

  /** Confirmation keeps the ledger sum and never takes the balance below zero. */
  lemma ConfirmKeepsLedger(u: User, t: Task)
    requires ConfirmOutcome(u, t).Success?
    ensures Ledger(ConfirmOutcome(u, t).value.0) == Ledger(u)
    ensures u.creditsBalance >= 0.0 && t.estimatedCost >= 0.0 ==> ConfirmOutcome(u, t).value.0.creditsBalance >= 0.0
  {
  }

  /** Cancellation: refused once finished; otherwise cancelled, refunding the estimate when no final cost was recorded. */
  function CancelOutcome(u: User, t: Task): (r: Result<(User, Task), ApiError>)
    ensures r.Failure? <==> t.status in {Completed, Failed, Cancelled}
    ensures r.Failure? ==> r.error == AlreadyFinished
    ensures r.Success? ==> r.value.1 == t.(status := Cancelled)
    ensures r.Success? && t.finalCost == 0.0 ==>
              r.value.0 == u.(creditsBalance := u.creditsBalance + t.estimatedCost,
                              monthlyUsage := u.monthlyUsage - t.estimatedCost)
    ensures r.Success? && t.finalCost != 0.0 ==> r.value.0 == u
  {
    if t.status in {Completed, Failed, Cancelled} then Failure(AlreadyFinished)
    else
      var u1 := if t.finalCost == 0.0
                then u.(creditsBalance := u.creditsBalance + t.estimatedCost,
                        monthlyUsage := u.monthlyUsage - t.estimatedCost)
                else u;
      Success((u1, t.(status := Cancelled)))
  }

  /** Cancelling keeps the ledger sum, and a cancelled task cannot be cancelled (or refunded) again. */
  lemma CancelKeepsLedgerAndRefundsOnce(u: User, t: Task)
    requires CancelOutcome(u, t).Success?
    ensures Ledger(CancelOutcome(u, t).value.0) == Ledger(u)
    ensures var (u1, t1) := CancelOutcome(u, t).value; CancelOutcome(u1, t1) == Failure(AlreadyFinished)
  {
  }

  /**
   * Creating a task and cancelling it before paying credits the estimate
   * that was never debited: the balance ends 1.50 higher than it started.
   */
  lemma CancelUnpaidTaskMintsCredit(u: User, data: TaskCreate)
    requires CreateOutcome(u, data).Success?
    ensures var t := CreateOutcome(u, data).value;
            CancelOutcome(u, t).Success? &&
            CancelOutcome(u, t).value.0.creditsBalance == u.creditsBalance + 1.5
  {
    CreatedTasksCostFlat(u, data);
  }

  /** Confirming and then cancelling before any cost is recorded gives the user back exactly what they had. */
  lemma ConfirmThenCancelRestores(u: User, t: Task)
    requires ConfirmOutcome(u, t).Success? && t.finalCost == 0.0
    ensures var (u1, t1) := ConfirmOutcome(u, t).value;
            CancelOutcome(u1, t1).Success? && CancelOutcome(u1, t1).value.0 == u
  {
  }

  /** Deletion is refused only while a phase is running. */
  function DeleteGuard(t: Task): (r: Option<ApiError>)
    ensures r.Some? <==> t.status in {Analyzing, Planning, Executing}
    ensures r.Some? ==> r.value == CannotDeleteRunning
  {
    if t.status in {Analyzing, Planning, Executing} then Some(CannotDeleteRunning) else None
  }

  /** A task the user owns. */
  function OwnedTask(tasks: map<nat, Task>, userId: nat, taskId: nat): (r: Option<Task>)
    ensures r.Some? <==> taskId in tasks && tasks[taskId].userId == userId
    ensures r.Some? ==> r.value == tasks[taskId]
  {
    if taskId in tasks && tasks[taskId].userId == userId then Some(tasks[taskId]) else None
  }

  /** Reading one task: only its owner sees it; anyone else gets the same 404 as for a missing task. */
  function GetTask(tasks: map<nat, Task>, userId: nat, taskId: nat): (r: Result<Task, ApiError>)
    ensures r.Success? <==> taskId in tasks && tasks[taskId].userId == userId
    ensures r.Success? ==> r.value == tasks[taskId]
    ensures r.Failure? ==> r.error == TaskNotFound
  {
    match OwnedTask(tasks, userId, taskId)
    case Some(t) => Success(t)
    case None => Failure(TaskNotFound)
  }

  /** Another user's task is indistinguishable from a missing one. */
  lemma ForeignTaskLooksMissing(tasks: map<nat, Task>, userId: nat, taskId: nat)
    requires taskId in tasks && tasks[taskId].userId != userId
    ensures GetTask(tasks, userId, taskId) == GetTask(tasks - {taskId}, userId, taskId)
  {
  }

  /** The user's task ids below `n`, newest (highest id) first. */
  function UserTaskIds(tasks: map<nat, Task>, userId: nat, n: nat): (r: seq<nat>)
    ensures forall i :: 0 <= i < |r| ==> r[i] < n && r[i] in tasks && tasks[r[i]].userId == userId
    ensures forall i, j :: 0 <= i < j < |r| ==> r[i] > r[j]
    ensures forall id :: id < n && id in tasks && tasks[id].userId == userId ==> id in r
  {
    if n == 0 then []
    else
      var rest := UserTaskIds(tasks, userId, n - 1);
      if n - 1 in tasks && tasks[n - 1].userId == userId then [n - 1] + rest else rest
  }

  /** One page of a list: skip some entries, keep at most `limit`. */
  function Page<T>(xs: seq<T>, skip: nat, limit: nat): (r: seq<T>)
    ensures |r| <= limit
    ensures skip < |xs| ==> r == xs[skip..if skip + limit < |xs| then skip + limit else |xs|]
    ensures skip >= |xs| ==> r == []
  {
    if skip >= |xs| then [] else xs[skip..if skip + limit < |xs| then skip + limit else |xs|]
  }

  /** Listing: the user's own tasks, newest first, one page of them. */
  function GetTasks(tasks: map<nat, Task>, nextTaskId: nat, userId: nat, skip: nat, limit: nat): (r: seq<Task>)
    ensures |r| <= limit
    ensures forall i :: 0 <= i < |r| ==> r[i].userId == userId && r[i] in tasks.Values
  {
    var ids := UserTaskIds(tasks, userId, nextTaskId);
    var page := Page(ids, skip, limit);
    assert forall i :: 0 <= i < |page| ==> page[i] in ids;
    seq(|page|, i requires 0 <= i < |page| => tasks[page[i]])
  }

  /** With the default window every task the user owns is listed, and listed after every newer one. */
  lemma GetTasksListsAllNewestFirst(db_tasks: map<nat, Task>, nextTaskId: nat, userId: nat)
    requires forall id :: id in db_tasks ==> db_tasks[id].id == id && id < nextTaskId
    requires |UserTaskIds(db_tasks, userId, nextTaskId)| <= 50
    ensures var r := GetTasks(db_tasks, nextTaskId, userId, 0, 50);
            (forall id :: id in db_tasks && db_tasks[id].userId == userId ==> db_tasks[id] in r)
            && (forall i, j :: 0 <= i < j < |r| ==> r[i].id > r[j].id)
  {
    var ids := UserTaskIds(db_tasks, userId, nextTaskId);
    assert Page(ids, 0, 50) == ids[0..|ids|] == ids;
    var r := GetTasks(db_tasks, nextTaskId, userId, 0, 50);
    forall id | id in db_tasks && db_tasks[id].userId == userId ensures db_tasks[id] in r {
      var i :| 0 <= i < |ids| && ids[i] == id;
      assert r[i] == db_tasks[id];
    }
  }

  /** POST /tasks: the checks, then a new row awaiting payment; nothing is charged. */
  method CreateTask(db: Store, userId: nat, data: TaskCreate) returns (r: Result<Task, ApiError>)
    requires db.Valid() && userId in db.users
    modifies db
    ensures db.Valid()
    ensures var o := CreateOutcome(old(db.users[userId]), data);
            (o.Failure? ==> r == o && db.tasks == old(db.tasks) && db.nextTaskId == old(db.nextTaskId))
            && (o.Success? ==> r == Success(o.value.(id := old(db.nextTaskId)))
                               && db.tasks == old(db.tasks)[old(db.nextTaskId) := r.value]
                               && db.nextTaskId == old(db.nextTaskId) + 1)
    ensures db.users == old(db.users) && db.messages == old(db.messages)
    ensures db.files == old(db.files) && db.payments == old(db.payments)
  {
    var user := db.users[userId];
    r := CreateOutcome(user, data);
    if r.Success? {
      var id := db.AddTask(r.value);
      r := Success(r.value.(id := id));
    }
  }

  /** POST /tasks/{id}/confirm: debit the estimate and release the task to the worker queue. */
  method ConfirmTaskPayment(db: Store, userId: nat, taskId: nat) returns (r: Result<Task, ApiError>)
    requires db.Valid() && userId in db.users
    modifies db
    ensures db.Valid()
    ensures OwnedTask(old(db.tasks), userId, taskId).None? ==>
              r == Failure(TaskNotFound) && db.users == old(db.users) && db.tasks == old(db.tasks)
    ensures OwnedTask(old(db.tasks), userId, taskId).Some? ==>
              var o := ConfirmOutcome(old(db.users[userId]), old(db.tasks[taskId]));
              (o.Failure? ==> r == Failure(o.error) && db.users == old(db.users) && db.tasks == old(db.tasks))
              && (o.Success? ==> r == Success(o.value.1)
                                 && db.users == old(db.users)[userId := o.value.0]
                                 && db.tasks == old(db.tasks)[taskId := o.value.1])
    ensures db.messages == old(db.messages) && db.files == old(db.files) && db.payments == old(db.payments)
    ensures db.nextTaskId == old(db.nextTaskId)
  {
    var found := OwnedTask(db.tasks, userId, taskId);
    if found.None? {
      return Failure(TaskNotFound);
    }
    var o := ConfirmOutcome(db.users[userId], found.value);
    if o.Failure? {
      return Failure(o.error);
    }
    db.PutUser(o.value.0);
    db.PutTask(o.value.1);
    r := Success(o.value.1);
  }

  /** POST /tasks/{id}/cancel. */
  method CancelTask(db: Store, userId: nat, taskId: nat) returns (r: Result<Task, ApiError>)
    requires db.Valid() && userId in db.users
    modifies db
    ensures db.Valid()
    ensures OwnedTask(old(db.tasks), userId, taskId).None? ==>
              r == Failure(TaskNotFound) && db.users == old(db.users) && db.tasks == old(db.tasks)
    ensures OwnedTask(old(db.tasks), userId, taskId).Some? ==>
              var o := CancelOutcome(old(db.users[userId]), old(db.tasks[taskId]));
              (o.Failure? ==> r == Failure(o.error) && db.users == old(db.users) && db.tasks == old(db.tasks))
              && (o.Success? ==> r == Success(o.value.1)
                                 && db.users == old(db.users)[userId := o.value.0]
                                 && db.tasks == old(db.tasks)[taskId := o.value.1])
    ensures db.messages == old(db.messages) && db.files == old(db.files) && db.payments == old(db.payments)
    ensures db.nextTaskId == old(db.nextTaskId)
  {
    var found := OwnedTask(db.tasks, userId, taskId);
    if found.None? {
      return Failure(TaskNotFound);
    }
    var o := CancelOutcome(db.users[userId], found.value);
    if o.Failure? {
      return Failure(o.error);
    }
    db.PutUser(o.value.0);
    db.PutTask(o.value.1);
    r := Success(o.value.1);
  }

  /** DELETE /tasks/{id}: refused while running; otherwise the row goes, with its messages and files. */
  method DeleteTask(db: Store, userId: nat, taskId: nat) returns (r: Option<ApiError>)
    requires db.Valid()
    modifies db
    ensures db.Valid()
    ensures OwnedTask(old(db.tasks), userId, taskId).None? ==> r == Some(TaskNotFound)
    ensures OwnedTask(old(db.tasks), userId, taskId).Some? ==> r == DeleteGuard(old(db.tasks[taskId]))
    ensures r.Some? ==> db.tasks == old(db.tasks) && db.messages == old(db.messages)
                        && db.files == old(db.files) && db.payments == old(db.payments)
    ensures r.None? ==> db.tasks == old(db.tasks) - {taskId}
                        && db.messages == WithoutTask(old(db.messages), taskId)
                        && db.files == FilesWithoutTask(old(db.files), taskId)
                        && db.payments == DetachPayments(old(db.payments), taskId)
    ensures db.users == old(db.users) && db.nextTaskId == old(db.nextTaskId)
  {
    var found := OwnedTask(db.tasks, userId, taskId);
    if found.None? {
      return Some(TaskNotFound);
    }
    r := DeleteGuard(found.value);
    if r.None? {
      db.DeleteTask(taskId);
    }
  }
}
