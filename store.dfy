/**
 * The database as the handlers and the task manager see it: users and
 * tasks by id, and the message, file and payment rows in insertion order.
 * Each method is one unit of work the original commits.
 */
module Store {
  import opened Wrappers
  import opened Models

  /** The rows of one task's messages, in the order they were created. */
  function MessagesOf(messages: seq<Message>, taskId: nat): (r: seq<Message>)
    ensures |r| <= |messages|
    ensures forall i :: 0 <= i < |r| ==> r[i].taskId == taskId
    ensures forall m :: m in messages && m.taskId == taskId ==> m in r
    ensures forall m :: m in r ==> m in messages
  {
    if messages == [] then []
    else
      var rest := MessagesOf(messages[..|messages| - 1], taskId);
      var last := messages[|messages| - 1];
      assert messages == messages[..|messages| - 1] + [last];
      if last.taskId == taskId then rest + [last] else rest
  }

  /** Appending a row adds it at the end of its own task's list and leaves every other list alone. */
  lemma {:induction false} MessagesOfAppend(messages: seq<Message>, m: Message, taskId: nat)
    ensures MessagesOf(messages + [m], taskId) ==
            MessagesOf(messages, taskId) + (if m.taskId == taskId then [m] else [])
  {
    assert (messages + [m])[..|messages + [m]| - 1] == messages;
  }

  /** Dropping a task's rows removes its list entirely and keeps the others in order. */
  function WithoutTask(messages: seq<Message>, taskId: nat): (r: seq<Message>)
    ensures forall i :: 0 <= i < |r| ==> r[i].taskId != taskId
    ensures forall m :: m in r <==> m in messages && m.taskId != taskId
  {
    if messages == [] then []
    else
      var rest := WithoutTask(messages[..|messages| - 1], taskId);
      var last := messages[|messages| - 1];
      assert messages == messages[..|messages| - 1] + [last];
      if last.taskId == taskId then rest else rest + [last]
  }

  lemma {:induction false} WithoutTaskKeepsOthers(messages: seq<Message>, taskId: nat, other: nat)
    requires other != taskId
    ensures MessagesOf(WithoutTask(messages, taskId), other) == MessagesOf(messages, other)
    decreases |messages|
  {
    if messages != [] {
      var init := messages[..|messages| - 1];
      var last := messages[|messages| - 1];
      WithoutTaskKeepsOthers(init, taskId, other);
      if last.taskId != taskId {
        MessagesOfAppend(WithoutTask(init, taskId), last, other);
      }
    }
  }

  /** A row written twice under one id ends as the second write. */
  lemma Rewritten<V>(rows: map<nat, V>, id: nat, first: V, second: V)
    ensures rows[id := first][id := second] == rows[id := second]
  {
  }

  /** Writing back the row already stored under an id changes nothing. */
  lemma WrittenBack<V>(rows: map<nat, V>, id: nat)
    requires id in rows
    ensures rows[id := rows[id]] == rows
  {
  }

  function FilesWithoutTask(files: seq<FileRecord>, taskId: nat): (r: seq<FileRecord>)
    ensures forall f :: f in r <==> f in files && f.taskId != Some(taskId)
  {
    if files == [] then []
    else
      var rest := FilesWithoutTask(files[..|files| - 1], taskId);
      var last := files[|files| - 1];
      assert files == files[..|files| - 1] + [last];
      if last.taskId == Some(taskId) then rest else rest + [last]
  }

  /** The payments with their reference to a deleted task cleared (the relation does not cascade). */
  function DetachPayments(payments: seq<Payment>, taskId: nat): (r: seq<Payment>)
    ensures |r| == |payments|
    ensures forall i :: 0 <= i < |r| ==>
              r[i] == if payments[i].taskId == Some(taskId) then payments[i].(taskId := None) else payments[i]
  {
    seq(|payments|, i requires 0 <= i < |payments| =>
      if payments[i].taskId == Some(taskId) then payments[i].(taskId := None) else payments[i])
  }

  class Store {
    var users: map<nat, User>
    var tasks: map<nat, Task>
    var messages: seq<Message>
    var files: seq<FileRecord>
    var payments: seq<Payment>
    var nextTaskId: nat

    /**
     * Rows are keyed by their own id, task ids are below the next one to be
     * handed out, and every message, file and payment refers to a task that
     * exists (or to none).
     */
    predicate Valid()
      reads this
    {
      (forall id :: id in users ==> users[id].id == id)
      && (forall id :: id in tasks ==> tasks[id].id == id && id < nextTaskId)
      && (forall i :: 0 <= i < |messages| ==> messages[i].taskId in tasks)
      && (forall i :: 0 <= i < |files| ==> files[i].taskId.Some? ==> files[i].taskId.value in tasks)
      && (forall i :: 0 <= i < |payments| ==> payments[i].taskId.Some? ==> payments[i].taskId.value in tasks)
    }

    constructor (users: map<nat, User>)
      requires forall id :: id in users ==> users[id].id == id
      ensures Valid()
      ensures this.users == users && tasks == map[] && messages == [] && files == [] && payments == []
      ensures nextTaskId == 0
    {
      this.users := users;
      tasks := map[];
      messages := [];
      files := [];
      payments := [];
      nextTaskId := 0;
    }

    /** Inserting a new task row: it gets the next id. */
    method AddTask(t: Task) returns (id: nat)
      requires Valid()
      modifies this
      ensures Valid()
      ensures id == old(nextTaskId) && id !in old(tasks)
      ensures tasks == old(tasks)[id := t.(id := id)] && nextTaskId == id + 1
      ensures users == old(users) && messages == old(messages) && files == old(files) && payments == old(payments)
    {
      id := nextTaskId;
      tasks := tasks[id := t.(id := id)];
      nextTaskId := nextTaskId + 1;
    }

    /** Writing back a changed task row under its id. */
    method PutTask(t: Task)
      requires Valid() && t.id in tasks
      modifies this
      ensures Valid()
      ensures tasks == old(tasks)[t.id := t]
      ensures users == old(users) && messages == old(messages) && files == old(files) && payments == old(payments)
      ensures nextTaskId == old(nextTaskId)
    {
      tasks := tasks[t.id := t];
    }

    /** Writing back a changed user row under its id. */
    method PutUser(u: User)
      requires Valid()
      modifies this
      ensures Valid()
      ensures users == old(users)[u.id := u]
      ensures tasks == old(tasks) && messages == old(messages) && files == old(files) && payments == old(payments)
      ensures nextTaskId == old(nextTaskId)
    {
      users := users[u.id := u];
    }

    /** Saving a chat message: the row is appended, so it is its task's newest message. */
    method SaveMessage(taskId: nat, role: MessageRole, content: Option<string>, tokens: int, cost: real,
                       provider: Option<AIProvider>)
      requires Valid() && taskId in tasks
      modifies this
      ensures Valid()
      ensures messages == old(messages) + [Message(taskId, role, content, tokens, cost, provider)]
      ensures users == old(users) && tasks == old(tasks) && files == old(files) && payments == old(payments)
      ensures nextTaskId == old(nextTaskId)
    {
      messages := messages + [Message(taskId, role, content, tokens, cost, provider)];
    }

    /**
     * Deleting a task: its messages and files go with it, payments keep
     * their rows but lose the reference.
     */
    method DeleteTask(taskId: nat)
      requires Valid() && taskId in tasks
      modifies this
      ensures Valid()
      ensures tasks == old(tasks) - {taskId}
      ensures messages == WithoutTask(old(messages), taskId)
      ensures files == FilesWithoutTask(old(files), taskId)
      ensures payments == DetachPayments(old(payments), taskId)
      ensures users == old(users) && nextTaskId == old(nextTaskId)
    {
      tasks := tasks - {taskId};
      messages := WithoutTask(messages, taskId);
      files := FilesWithoutTask(files, taskId);
      payments := DetachPayments(payments, taskId);
      forall i | 0 <= i < |messages| ensures messages[i].taskId in tasks {
        assert messages[i] in messages;
      }
      forall i | 0 <= i < |files| && files[i].taskId.Some? ensures files[i].taskId.value in tasks {
        assert files[i] in files;
      }
    }
  }
}
