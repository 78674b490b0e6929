/** The task store subscriber: an in-memory list of task records that the
    `task_created` and `task_completed` events change in place. */
module TaskStore {
  import opened Wrappers
  import opened Events

  datatype Status = Pending | Completed

  datatype Task = Task(id: string, text: string, user: string, channel: string, status: Status, createdAt: string)

  /** The record stored for a `task_created` event; `id` is generated by the
      caller. */
  function NewTask(id: string, input: TaskInput): Task {
    Task(id, input.text, input.user, input.channel, Pending, input.timestamp)
  }

  /** The record a `task_completed` event for `text` and `user` is looking for. */
  predicate IsPendingMatch(t: Task, text: string, user: string) {
    t.text == text && t.user == user && t.status == Pending
  }

  /** `findIndex` for a pending match: the lowest matching index, if any. */
  function FindPending(tasks: seq<Task>, text: string, user: string): (r: Option<nat>)
    ensures r.Some? ==> r.value < |tasks| && IsPendingMatch(tasks[r.value], text, user)
    ensures r.Some? ==> forall j :: 0 <= j < r.value ==> !IsPendingMatch(tasks[j], text, user)
    ensures r.None? ==> forall j :: 0 <= j < |tasks| ==> !IsPendingMatch(tasks[j], text, user)
  {
    if |tasks| == 0 then None
    else if IsPendingMatch(tasks[0], text, user) then Some(0)
    else match FindPending(tasks[1..], text, user)
      case None => None
      case Some(k) => Some(k + 1)
  }

  /** The store after a `task_completed` event for `text` and `user`. */
  function CompleteFirst(tasks: seq<Task>, text: string, user: string): (r: seq<Task>)
    ensures |r| == |tasks|
    // the only record that may change is the lowest pending match, and only its status
    ensures forall j :: 0 <= j < |tasks| && r[j] != tasks[j] ==>
      IsPendingMatch(tasks[j], text, user) && r[j] == tasks[j].(status := Completed) &&
      forall k :: 0 <= k < j ==> !IsPendingMatch(tasks[k], text, user)
    // with no pending match, nothing changes; with one, something does
    ensures r == tasks <==> forall j :: 0 <= j < |tasks| ==> !IsPendingMatch(tasks[j], text, user)
  {
    match FindPending(tasks, text, user)
    case None => tasks
    case Some(i) =>
      assert tasks[i].status != tasks[i].(status := Completed).status;
      tasks[i := tasks[i].(status := Completed)]
  }

  /** The store after the handler runs for an event of `topic` with `input`. */
  function Apply(tasks: seq<Task>, topic: string, input: TaskInput, id: string): seq<Task>
  {
    if topic == TaskCreated then tasks + [NewTask(id, input)]
    else if topic == TaskCompleted then CompleteFirst(tasks, input.text, input.user)
    else tasks
  }

  /** `a` and `b` are the same record apart from its status. */
  predicate SameRecord(a: Task, b: Task) {
    a.id == b.id && a.text == b.text && a.user == b.user && a.channel == b.channel && a.createdAt == b.createdAt
  }

  /** How the store may evolve: it never shrinks, stored records keep every
      field but their status, and a completed record stays completed. */
  predicate Evolves(before: seq<Task>, after: seq<Task>) {
    |before| <= |after| &&
    forall i :: 0 <= i < |before| ==>
      SameRecord(before[i], after[i]) && (before[i].status == Completed ==> after[i].status == Completed)
  }

  /** A completion keeps the store's history. */
  lemma CompleteEvolves(tasks: seq<Task>, text: string, user: string)
    ensures Evolves(tasks, CompleteFirst(tasks, text, user))
  {
  }

  /** Every event keeps the store's history: records are never removed,
      reordered or rewritten except for a pending-to-completed status change;
      `task_completed` keeps the length; any other topic changes nothing. */
  lemma ApplyEvolves(tasks: seq<Task>, topic: string, input: TaskInput, id: string)
    ensures Evolves(tasks, Apply(tasks, topic, input, id))
    ensures topic == TaskCompleted ==> |Apply(tasks, topic, input, id)| == |tasks|
    ensures topic != TaskCreated && topic != TaskCompleted ==> Apply(tasks, topic, input, id) == tasks
  {
  }

  /** Evolution composes. */
  lemma EvolvesTransitive(a: seq<Task>, b: seq<Task>, c: seq<Task>)
    requires Evolves(a, b) && Evolves(b, c)
    ensures Evolves(a, c)
  {
  }

  /** One event as the task store handler receives it, with the id a created
      task would get. */
  datatype Delivery = Delivery(topic: string, input: TaskInput, id: string)

  /** The store after the handler has run for each delivery in order. */
  function ApplyAll(tasks: seq<Task>, deliveries: seq<Delivery>): seq<Task>
    decreases |deliveries|
  {
    if |deliveries| == 0 then tasks
    else
      var d := deliveries[0];
      ApplyAll(Apply(tasks, d.topic, d.input, d.id), deliveries[1..])
  }

  /** Any run of events keeps the store's history. */
  lemma {:induction false} ApplyAllEvolves(tasks: seq<Task>, deliveries: seq<Delivery>)
    ensures Evolves(tasks, ApplyAll(tasks, deliveries))
    decreases |deliveries|
  {
    if |deliveries| > 0 {
      var d := deliveries[0];
      var next := Apply(tasks, d.topic, d.input, d.id);
      ApplyEvolves(tasks, d.topic, d.input, d.id);
      ApplyAllEvolves(next, deliveries[1..]);
      EvolvesTransitive(tasks, next, ApplyAll(tasks, deliveries));
    }
  }

  /** The number of records that a completion for `text` and `user` would match. */
  function CountPending(tasks: seq<Task>, text: string, user: string): nat
  {
    if |tasks| == 0 then 0
    else (if IsPendingMatch(tasks[0], text, user) then 1 else 0) + CountPending(tasks[1..], text, user)
  }

  /** Appending a record adds one to the count exactly when it is a pending match. */
  lemma {:induction false} CountPendingAppend(tasks: seq<Task>, t: Task, text: string, user: string)
    ensures CountPending(tasks + [t], text, user) ==
      CountPending(tasks, text, user) + (if IsPendingMatch(t, text, user) then 1 else 0)
    decreases |tasks|
  {
    if |tasks| == 0 {
      assert [t][1..] == [];
    } else {
      assert (tasks + [t])[1..] == tasks[1..] + [t];
      CountPendingAppend(tasks[1..], t, text, user);
    }
  }

  /** Each completion retires exactly one pending match when there is one, so
      n duplicate pending tasks need n completions. */
  lemma {:induction false} CompleteRetiresOne(tasks: seq<Task>, text: string, user: string)
    ensures CountPending(tasks, text, user) > 0 ==>
      CountPending(CompleteFirst(tasks, text, user), text, user) == CountPending(tasks, text, user) - 1
    ensures CountPending(tasks, text, user) == 0 ==> CompleteFirst(tasks, text, user) == tasks
  {
    if |tasks| > 0 {
      var r := CompleteFirst(tasks, text, user);
      CompleteRetiresOne(tasks[1..], text, user);
      if IsPendingMatch(tasks[0], text, user) {
        assert r[1..] == tasks[1..];
      } else {
        assert r[0] == tasks[0];
        assert r[1..] == CompleteFirst(tasks[1..], text, user) by {
          match FindPending(tasks[1..], text, user)
          case None =>
          case Some(k) =>
        }
      }
    }
  }

  /** The module-level `tasks` array of the task store and its event handler. */
  class Store {
    var tasks: seq<Task>

    constructor ()
      ensures tasks == []
    {
      tasks := [];
    }

    /** `task_created`: appends one pending record built from the event. */
    method Create(id: string, input: TaskInput)
      modifies this
      ensures tasks == old(tasks) + [NewTask(id, input)]
      ensures Evolves(old(tasks), tasks)
    {
      tasks := tasks + [NewTask(id, input)];
    }

    /** `task_completed`: marks the first pending record with this text and
        user completed; a silent no-op when there is none. */
    method Complete(text: string, user: string)
      modifies this
      ensures tasks == CompleteFirst(old(tasks), text, user)
      ensures Evolves(old(tasks), tasks)
    {
      var taskIndex := FindPending(tasks, text, user);
      if taskIndex.Some? {
        tasks := tasks[taskIndex.value := tasks[taskIndex.value].(status := Completed)];
      }
      CompleteEvolves(old(tasks), text, user);
    }

    /** The handler: dispatches on the topic the event arrived on. */
    method Handle(topic: string, input: TaskInput, id: string)
      modifies this
      ensures tasks == Apply(old(tasks), topic, input, id)
    {
      if topic == TaskCreated {
        Create(id, input);
        return;
      }
      if topic == TaskCompleted {
        Complete(input.text, input.user);
        return;
      }
    }
  }
}
