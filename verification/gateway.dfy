/** The slash-command endpoint: token gate, the command switch, the reply and
    the one event it hands to the bus. The clock, the header lookup, the
    environment and the locale rendering of dates are parameters. */
module Gateway {
  import opened Wrappers
  import opened Events
  import opened TaskStore
  import Text

  /** The request body of a slash command. */
  datatype Request = Request(command: string, text: string, userId: string, channelId: string, responseUrl: string)

  datatype ResponseType = InChannel | Ephemeral

  datatype Body = Message(responseType: ResponseType, text: string) | Failure(error: string)

  datatype Reply = Reply(status: int, body: Body)

  /** The synchronous reply and the event handed to the bus, if any. */
  datatype Outcome = Outcome(reply: Reply, emitted: Option<Event>)

  const Unauthorized := Reply(401, Failure("Unauthorized"))
  const InternalError := "Internal server error"
  const NoTasks := "You have no tasks."
  const ListHeader := "Your tasks:\n"
  const Help := "Unknown command. Available commands: /task, /reminder, /complete, /list"

  /** The request token: the `x-slack-request-token` header when truthy,
      otherwise the `x-slack-signature` header. */
  function RequestToken(requestTokenHeader: Option<string>, signatureHeader: Option<string>): Option<string> {
    if Present(requestTokenHeader) then requestTokenHeader else signatureHeader
  }

  /** The token gate. It lets a request through when the configured token and
      either header are present, whatever their values: the two are never
      compared. */
  function Authorized(configured: Option<string>, requestTokenHeader: Option<string>, signatureHeader: Option<string>): (ok: bool)
    ensures ok <==> Present(configured) && (Present(requestTokenHeader) || Present(signatureHeader))
  {
    Present(configured) && Present(RequestToken(requestTokenHeader, signatureHeader))
  }

  /** `tasks.filter(t => t.user === user)`. */
  function UserTasks(tasks: seq<Task>, user: string): (r: seq<Task>)
    ensures forall t :: t in r <==> t in tasks && t.user == user
    ensures |r| <= |tasks|
  {
    if |tasks| == 0 then []
    else (if tasks[0].user == user then [tasks[0]] else []) + UserTasks(tasks[1..], user)
  }

  /** Filtering keeps store order: the tasks of an earlier part of the store
      come first. */
  lemma {:induction false} UserTasksAppend(a: seq<Task>, b: seq<Task>, user: string)
    ensures UserTasks(a + b, user) == UserTasks(a, user) + UserTasks(b, user)
    decreases |a|
  {
    if |a| > 0 {
      assert (a + b)[1..] == a[1..] + b;
      UserTasksAppend(a[1..], b, user);
    } else {
      assert a + b == b;
    }
  }

  function Glyph(status: Status): string {
    if status == Completed then "\U{2705}" else "\U{23F3}"
  }

  /** One line of the `/list` reply; `render` is the locale rendering of the
      creation timestamp. */
  function TaskLine(t: Task, render: string -> string): string {
    Glyph(t.status) + " " + t.text + " (" + render(t.createdAt) + ")"
  }

  function TaskLines(tasks: seq<Task>, render: string -> string): seq<string> {
    seq(|tasks|, i requires 0 <= i < |tasks| => TaskLine(tasks[i], render))
  }

  /** The `/list` reply for `user` over the task list `listed`. */
  function ListReply(listed: seq<Task>, user: string, render: string -> string): (r: Reply)
    ensures r.status == 200 && r.body.Message? && r.body.responseType == Ephemeral
    // the fixed reply exactly when the user has no task, whatever other users have
    ensures r.body.text == NoTasks <==> forall i :: 0 <= i < |listed| ==> listed[i].user != user
    ensures r.body.text != NoTasks ==>
      r.body.text == ListHeader + Text.Join(TaskLines(UserTasks(listed, user), render), "\n") &&
      |UserTasks(listed, user)| > 0
  {
    var userTasks := UserTasks(listed, user);
    if |userTasks| == 0 then
      Reply(200, Message(Ephemeral, NoTasks))
    else
      assert listed[0].user == user ==> listed[0] in userTasks;
      assert userTasks[0] in listed;
      var text := ListHeader + Text.Join(TaskLines(userTasks, render), "\n");
      assert text[3] != NoTasks[3];
      Reply(200, Message(Ephemeral, text))
  }

  /** When the user has tasks, the `/list` reply is the header followed by
      their lines, and so is not the fixed "no tasks" text. */
  lemma ListReplyLines(listed: seq<Task>, user: string, render: string -> string)
    requires |UserTasks(listed, user)| > 0
    ensures ListReply(listed, user, render).body.text ==
      ListHeader + Text.Join(TaskLines(UserTasks(listed, user), render), "\n")
    ensures ListReply(listed, user, render).body.text != NoTasks
  {
    var mine := UserTasks(listed, user);
    assert mine[0] in listed;
    var i :| 0 <= i < |listed| && listed[i] == mine[0];
    assert listed[i].user == user;
  }

  /** The `switch` on the command, for a request past the token gate.
      `now` is the ISO rendering of the current instant. */
  function Interpret(req: Request, now: string, listed: seq<Task>, render: string -> string): Outcome {
    match req.command
    case "/task" =>
      Outcome(Reply(200, Message(InChannel, "\U{2705} Task created: " + req.text)),
              Some(Event(TaskCreated, TaskData(TaskInput(req.text, req.userId, req.channelId, now)))))
    case "/reminder" =>
      var (time, reminderText) := Text.SplitFirst(req.text, ' ');
      Outcome(Reply(200, Message(InChannel, "\U{23F0} Reminder set for " + time + ": " + reminderText)),
              Some(Event(TaskReminder, ReminderData(ReminderInput(reminderText, req.userId, req.channelId, time, now)))))
    case "/complete" =>
      Outcome(Reply(200, Message(InChannel, "\U{2705} Task completed: " + req.text)),
              Some(Event(TaskCompleted, TaskData(TaskInput(req.text, req.userId, req.channelId, now)))))
    case "/list" =>
      Outcome(ListReply(listed, req.userId, render), None)
    case _ =>
      Outcome(Reply(200, Message(Ephemeral, Help)), None)
  }

  /** The whole handler. `emitFault` is the message the bus rejected the
      hand-off with, if it did; the catch block turns that into a 500 reply. */
  function Handle(req: Request, configured: Option<string>, requestTokenHeader: Option<string>,
                  signatureHeader: Option<string>, now: string, listed: seq<Task>,
                  render: string -> string, emitFault: Option<string>): (o: Outcome)
    // token gate
    ensures !Authorized(configured, requestTokenHeader, signatureHeader) ==> o == Outcome(Unauthorized, None)
    // an event leaves only on the three emitting commands, with a 200 in-channel reply
    ensures o.emitted.Some? ==>
      Authorized(configured, requestTokenHeader, signatureHeader) && emitFault.None? &&
      req.command in {"/task", "/reminder", "/complete"} &&
      o.reply.status == 200 && o.reply.body.Message? && o.reply.body.responseType == InChannel
    // a rejected hand-off becomes a 500 carrying its message
    ensures (Authorized(configured, requestTokenHeader, signatureHeader) && emitFault.Some? &&
             req.command in {"/task", "/reminder", "/complete"}) ==>
      o == Outcome(Reply(500, Failure(if emitFault.value == "" then InternalError else emitFault.value)), None)
    ensures Authorized(configured, requestTokenHeader, signatureHeader) && emitFault.None? ==>
      (req.command in {"/task", "/reminder", "/complete"} <==> o.emitted.Some?)
    // /task and /complete carry the body's text, user and channel
    ensures o.emitted.Some? && req.command == "/task" ==>
      o.emitted.value == Event(TaskCreated, TaskData(TaskInput(req.text, req.userId, req.channelId, now))) &&
      o.reply.body.text == "\U{2705} Task created: " + req.text
    ensures o.emitted.Some? && req.command == "/complete" ==>
      o.emitted.value == Event(TaskCompleted, TaskData(TaskInput(req.text, req.userId, req.channelId, now))) &&
      o.reply.body.text == "\U{2705} Task completed: " + req.text
    // /reminder splits the text at its first space into the time token and the rest
    ensures o.emitted.Some? && req.command == "/reminder" ==>
      o.emitted.value.topic == TaskReminder && o.emitted.value.data.ReminderData? &&
      var r := o.emitted.value.data.reminder;
      r.user == req.userId && r.channel == req.channelId && r.timestamp == now &&
      ' ' !in r.time &&
      (if ' ' in req.text then r.time + " " + r.text == req.text else r.time == req.text && r.text == "") &&
      o.reply.body.text == "\U{23F0} Reminder set for " + r.time + ": " + r.text
    // /list and any other command reply directly and emit nothing
    ensures Authorized(configured, requestTokenHeader, signatureHeader) && req.command == "/list" ==>
      o == Outcome(ListReply(listed, req.userId, render), None)
    ensures (Authorized(configured, requestTokenHeader, signatureHeader) &&
             req.command !in {"/task", "/reminder", "/complete", "/list"}) ==>
      o == Outcome(Reply(200, Message(Ephemeral, Help)), None)
  {
    Text.SplitFirstSpec(req.text, ' ');
    if !Authorized(configured, requestTokenHeader, signatureHeader) then
      Outcome(Unauthorized, None)
    else
      var out := Interpret(req, now, listed, render);
      if out.emitted.Some? && emitFault.Some? then
        Outcome(Reply(500, Failure(if emitFault.value == "" then InternalError else emitFault.value)), None)
      else
        out
  }
}
