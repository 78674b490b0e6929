/** The application put together: the gateway's event is routed to the
    subscribers of its topic (the task store for `task_created` and
    `task_completed`, the reminder scheduler for `task_reminder`), and `/list`
    reads the same store that those events change. Delivery is modelled as
    completing before the next request is handled. */
module App {
  import opened Wrappers
  import opened Events
  import opened TaskStore
  import opened Gateway
  import Reminder
  import Text

  /** The second `tasks` array, declared in the endpoint's own module: no
      code ever appends to it, so it stays empty. */
  const ApiModuleTasks: seq<Task> := []

  /** The store after the task store subscriber has seen the emitted event. */
  function Deliver(tasks: seq<Task>, emitted: Option<Event>, id: string): seq<Task> {
    match emitted
    case Some(Event(topic, TaskData(input))) =>
      if topic == TaskCreated || topic == TaskCompleted then Apply(tasks, topic, input, id) else tasks
    case _ => tasks
  }

  /** The reminder subscriber's decision for the emitted event, if it was a
      `task_reminder`. `parse` is date parsing, `now` the clock in milliseconds. */
  function ReminderFor(emitted: Option<Event>, parse: string -> Option<int>, now: int): Option<Reminder.Decision> {
    match emitted
    case Some(Event(topic, ReminderData(input))) =>
      if topic == TaskReminder then Some(Reminder.Decide(input, parse(input.time), now)) else None
    case _ => None
  }

  /** The store seen by `/list` after a `/task` request from the same user has
      been delivered: the user's previous tasks, then the new pending one. */
  lemma CreatedTaskIsListed(tasks: seq<Task>, req: Request, configured: Option<string>,
                            requestTokenHeader: Option<string>, signatureHeader: Option<string>,
                            now: string, render: string -> string, id: string)
    requires Authorized(configured, requestTokenHeader, signatureHeader)
    requires req.command == "/task"
    ensures
      var o := Handle(req, configured, requestTokenHeader, signatureHeader, now, tasks, render, None);
      UserTasks(Deliver(tasks, o.emitted, id), req.userId) ==
        UserTasks(tasks, req.userId) + [Task(id, req.text, req.userId, req.channelId, Pending, now)]
  {
    var t := Task(id, req.text, req.userId, req.channelId, Pending, now);
    UserTasksAppend(tasks, [t], req.userId);
    assert [t][1..] == [];
  }

  /** As written, `/list` reads the endpoint's own array: after a `/task`
      request whose task the store now holds, `/list` from the same user still
      answers that there are no tasks. */
  lemma ListAsWrittenShowsNoTasks(tasks: seq<Task>, taskReq: Request, listReq: Request,
                                  configured: Option<string>, requestTokenHeader: Option<string>,
                                  signatureHeader: Option<string>, now: string, later: string,
                                  render: string -> string, id: string)
    requires Authorized(configured, requestTokenHeader, signatureHeader)
    requires taskReq.command == "/task" && listReq.command == "/list" && listReq.userId == taskReq.userId
    ensures
      var o := Handle(taskReq, configured, requestTokenHeader, signatureHeader, now, ApiModuleTasks, render, None);
      var stored := Deliver(tasks, o.emitted, id);
      |UserTasks(stored, listReq.userId)| > 0 &&
      Handle(listReq, configured, requestTokenHeader, signatureHeader, later, ApiModuleTasks, render, None).reply ==
        Reply(200, Message(Ephemeral, NoTasks))
  {
  }

  /** The list text for a non-empty run of tasks ends with the last task's line. */
  lemma ListTextEndsWithLast(mine: seq<Task>, render: string -> string)
    requires |mine| > 0
    ensures Text.EndsWith(ListHeader + Text.Join(TaskLines(mine, render), "\n"), TaskLine(mine[|mine| - 1], render))
  {
    var lines := TaskLines(mine, render);
    assert lines[|lines| - 1] == TaskLine(mine[|mine| - 1], render);
    Text.JoinEndsWithLast(lines, "\n");
    Text.EndsWithPrepend(ListHeader, Text.Join(lines, "\n"), lines[|lines| - 1]);
  }

  /** The `/list` reply ends with the line of the user's last task. */
  lemma ListEndsWithLastTask(listed: seq<Task>, user: string, render: string -> string)
    requires |UserTasks(listed, user)| > 0
    ensures
      var mine := UserTasks(listed, user);
      var text := ListReply(listed, user, render).body.text;
      text != NoTasks && Text.EndsWith(text, TaskLine(mine[|mine| - 1], render))
  {
    ListReplyLines(listed, user, render);
    ListTextEndsWithLast(UserTasks(listed, user), render);
  }

  /** With one shared store, `/list` after `/task` from the same user answers
      with the task list, whose last line is the new task, still pending. */
  lemma ListShowsCreatedTask(tasks: seq<Task>, taskReq: Request, listReq: Request,
                             configured: Option<string>, requestTokenHeader: Option<string>,
                             signatureHeader: Option<string>, now: string, later: string,
                             render: string -> string, id: string)
    requires Authorized(configured, requestTokenHeader, signatureHeader)
    requires taskReq.command == "/task" && listReq.command == "/list" && listReq.userId == taskReq.userId
    ensures
      var o := Handle(taskReq, configured, requestTokenHeader, signatureHeader, now, tasks, render, None);
      var stored := Deliver(tasks, o.emitted, id);
      var text := Handle(listReq, configured, requestTokenHeader, signatureHeader, later, stored, render, None).reply.body.text;
      text != NoTasks && Text.EndsWith(text, "\U{23F3} " + taskReq.text + " (" + render(now) + ")")
  {
    var o := Handle(taskReq, configured, requestTokenHeader, signatureHeader, now, tasks, render, None);
    var stored := Deliver(tasks, o.emitted, id);
    CreatedTaskIsListed(tasks, taskReq, configured, requestTokenHeader, signatureHeader, now, render, id);
    ListEndsWithLastTask(stored, listReq.userId, render);
    var t := Task(id, taskReq.text, taskReq.userId, taskReq.channelId, Pending, now);
    assert Glyph(t.status) + " " == "\U{23F3} ";
  }

  /** The `/list` text for a store holding one completed task of the user. */
  lemma ListOneCompleted(t: Task, render: string -> string)
    requires t.status == Completed
    ensures ListReply([t], t.user, render).body.text == ListHeader + "\U{2705} " + t.text + " (" + render(t.createdAt) + ")"
  {
    assert UserTasks([t], t.user) == [t];
    ListReplyLines([t], t.user, render);
    var lines := TaskLines([t], render);
    assert |lines| == 1 && lines[0] == TaskLine(t, render);
    assert Glyph(t.status) + " " == "\U{2705} ";
  }

  /** On a fresh store, `/task`, `/complete` of the same text and `/list`, all
      from one user, list exactly that task, marked completed. */
  lemma CompleteThenList(text: string, user: string, channel: string, configured: Option<string>,
                         requestTokenHeader: Option<string>, signatureHeader: Option<string>,
                         t1: string, t2: string, t3: string, render: string -> string, id: string)
    requires Authorized(configured, requestTokenHeader, signatureHeader)
    ensures
      var o1 := Handle(Request("/task", text, user, channel, ""), configured, requestTokenHeader, signatureHeader, t1, [], render, None);
      var s1 := Deliver([], o1.emitted, id);
      var o2 := Handle(Request("/complete", text, user, channel, ""), configured, requestTokenHeader, signatureHeader, t2, s1, render, None);
      var s2 := Deliver(s1, o2.emitted, id);
      var o3 := Handle(Request("/list", "", user, channel, ""), configured, requestTokenHeader, signatureHeader, t3, s2, render, None);
      o3.reply == Reply(200, Message(Ephemeral, ListHeader + "\U{2705} " + text + " (" + render(t1) + ")"))
  {
    TaskThenCompleteKeepsPending([], text, user, channel, configured, requestTokenHeader, signatureHeader, t1, t2, render, id);
    var s1 := [Task(id, text, user, channel, Pending, t1)];
    var t := Task(id, text, user, channel, Completed, t1);
    assert [] + [s1[0]] == s1;
    assert CompleteFirst(s1, text, user) == [t] by {
      assert IsPendingMatch(s1[0], text, user);
    }
    ListOneCompleted(t, render);
  }

  /** On any store, `/task` then `/complete` of the same text from one user
      add one record (the new task, pending, at the end) and leave the number
      of pending tasks with that text and user as it was: the completion
      retires one of them, the oldest. */
  lemma TaskThenCompleteKeepsPending(tasks: seq<Task>, text: string, user: string, channel: string,
                                     configured: Option<string>, requestTokenHeader: Option<string>,
                                     signatureHeader: Option<string>, t1: string, t2: string,
                                     render: string -> string, id: string)
    requires Authorized(configured, requestTokenHeader, signatureHeader)
    ensures
      var o1 := Handle(Request("/task", text, user, channel, ""), configured, requestTokenHeader, signatureHeader, t1, tasks, render, None);
      var s1 := Deliver(tasks, o1.emitted, id);
      var o2 := Handle(Request("/complete", text, user, channel, ""), configured, requestTokenHeader, signatureHeader, t2, s1, render, None);
      var s2 := Deliver(s1, o2.emitted, id);
      s1 == tasks + [Task(id, text, user, channel, Pending, t1)] &&
      s2 == CompleteFirst(s1, text, user) &&
      CountPending(s2, text, user) == CountPending(tasks, text, user)
  {
    var t := Task(id, text, user, channel, Pending, t1);
    var s1 := tasks + [t];
    CountPendingAppend(tasks, t, text, user);
    CompleteRetiresOne(s1, text, user);
  }

  /** One process: the endpoint and the task store share a single store. */
  class System {
    const store: Store

    constructor ()
      ensures fresh(store) && store.tasks == []
    {
      store := new Store();
    }

    /** Handles one slash-command request and delivers the event it emits to
        the subscribers of its topic. `id` is the id a created task gets;
        `parse` and `clock` are the date parsing and the millisecond clock the
        reminder scheduler uses. */
    method Request(req: Gateway.Request, configured: Option<string>, requestTokenHeader: Option<string>,
                   signatureHeader: Option<string>, now: string, render: string -> string,
                   emitFault: Option<string>, id: string, parse: string -> Option<int>, clock: int)
      returns (o: Outcome, reminder: Option<Reminder.Decision>)
      modifies store
      ensures o == Handle(req, configured, requestTokenHeader, signatureHeader, now, old(store.tasks), render, emitFault)
      ensures store.tasks == Deliver(old(store.tasks), o.emitted, id)
      ensures Evolves(old(store.tasks), store.tasks)
      ensures reminder == ReminderFor(o.emitted, parse, clock)
    {
      o := Handle(req, configured, requestTokenHeader, signatureHeader, now, store.tasks, render, emitFault);
      reminder := None;
      match o.emitted {
        case Some(Event(topic, TaskData(input))) =>
          if topic == TaskCreated || topic == TaskCompleted {
            ApplyEvolves(store.tasks, topic, input, id);
            store.Handle(topic, input, id);
          }
        case Some(Event(topic, ReminderData(input))) =>
          if topic == TaskReminder {
            reminder := Some(Reminder.Decide(input, parse(input.time), clock));
          }
        case None =>
      }
    }
  }
}
