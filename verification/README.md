# Slack task manager — a verified Dafny model

A model of the core of a small Slack slash-command task manager built from
three event-driven steps:

- the **command endpoint** (`api.step.ts`), which checks a verification token,
  switches on the slash command (`/task`, `/reminder`, `/complete`, `/list`,
  anything else), replies synchronously and emits at most one event;
- the **task store** (`taskStorage.step.ts`), a module-level list of task
  records that the `task_created` event appends to and the `task_completed`
  event updates in place (the first pending record with the same text and user
  becomes completed);
- the **reminder scheduler** (`reminder.step.ts`), which turns a
  `task_reminder` event into one deferred chat message, or abandons it when the
  time does not parse or is not in the future.

Modules, one per component:

| file | module | form |
|---|---|---|
| `wrappers.dfy` | `Wrappers` | `Option` |
| `events.dfy` | `Events` | topics, event payloads, JavaScript truthiness of an optional string |
| `text.dfy` | `Text` | JavaScript `split` on one character and `join`, with their round trip |
| `tasks.dfy` | `TaskStore` | the store as a class `Store` over a `seq<Task>` whose methods are proved against the pure functions `CompleteFirst` and `Apply` |
| `gateway.dfy` | `Gateway` | the endpoint as a pure function `Handle` from request, configuration, headers, clock and task list to reply and emitted event |
| `reminder.dfy` | `Reminder` | the scheduling decision `Decide` and the timer callback `Fire` as pure functions |
| `app.dfy` | `App` | the steps composed: events routed to the subscribers of their topic, one shared store |

The model follows the code as written; in particular:

- The token gate only checks that the configured token and a request token are
  both present; it never compares them (`Gateway.Authorized`).
- `/reminder` splits its text at the first U+0020 space only, not at any
  whitespace.
- `/list` reads a second `tasks` array declared in `api.step.ts` itself, not
  the store that the events change (see Findings). `Gateway.Handle` therefore
  takes the listed tasks as a parameter; `App` models both the code as written
  and the intended single shared store.
- The reply to `/reminder` is "⏰ Reminder set for <time>: <rest>".

## Model

| member | source | states |
|---|---|---|
| TaskStore.FindPending | slack-example/steps/taskStorage.step.ts:52 | the index found is a pending record with the given text and user, and no lower index is one; none is found only when no record matches |
| TaskStore.CompleteFirst | slack-example/steps/taskStorage.step.ts:50-57 | `task_completed` keeps the length; the only record that can change is the lowest pending match, which changes to the same record with status completed; the store is unchanged exactly when there is no pending match |
| TaskStore.CompleteEvolves | slack-example/steps/taskStorage.step.ts:52-55 | a completion rewrites no field but a status and never turns a completed record back to pending |
| TaskStore.ApplyEvolves | slack-example/steps/taskStorage.step.ts:30-63 | every event keeps the store's history (no record removed, fields other than status kept, completed stays completed, length never decreases); `task_completed` keeps the length; any other topic leaves the store identical |
| TaskStore.EvolvesTransitive | slack-example/steps/taskStorage.step.ts:5-12 | the history-keeping relation is transitive |
| TaskStore.ApplyAllEvolves | slack-example/steps/taskStorage.step.ts:30-63 | any run of events delivered to the handler keeps the store's history: no record removed, fields other than status kept, completed stays completed |
| TaskStore.CountPendingAppend | slack-example/steps/taskStorage.step.ts:44 | appending a record raises the number of pending matches by one exactly when the record is a pending match |
| TaskStore.CompleteRetiresOne | slack-example/steps/taskStorage.step.ts:52-54 | each completion lowers the number of pending matches by exactly one when there is one, and is a no-op when there is none |
| TaskStore.Store.constructor | slack-example/steps/taskStorage.step.ts:5-12 | the store starts empty |
| TaskStore.Store.Create | slack-example/steps/taskStorage.step.ts:34-47 | appends one record at the end, with the event's text, user, channel, status pending and createdAt equal to the event's timestamp; earlier records are untouched |
| TaskStore.Store.Complete | slack-example/steps/taskStorage.step.ts:50-57 | the new store is `CompleteFirst` of the old one, so only the first pending match changes, and only its status |
| TaskStore.Store.Handle | slack-example/steps/taskStorage.step.ts:30-63 | dispatches on the topic: create, complete, or leave the store unchanged for any other topic |
| Text.Split | slack-example/steps/api.step.ts:92 | `split` yields at least one piece and no piece holds the separator |
| Text.JoinSplit | slack-example/steps/api.step.ts:92-96 | joining the pieces of a split with the same separator gives back the original text |
| Text.SplitFirstSpec | slack-example/steps/api.step.ts:92-99 | the reminder's time token holds no space; if the text holds a space, time, a space and the remainder make up the text, otherwise the time is the whole text and the remainder is empty |
| Text.JoinEndsWithLast | slack-example/steps/api.step.ts:149-151 | a joined list of lines ends with its last line |
| Gateway.Authorized | slack-example/steps/api.step.ts:51-64 | a request passes exactly when the configured token and either token header are present and non-empty; their values are never compared |
| Gateway.UserTasks | slack-example/steps/api.step.ts:138 | the filtered list holds exactly the tasks of the user, and no more tasks than the list |
| Gateway.UserTasksAppend | slack-example/steps/api.step.ts:138 | filtering keeps store order: the filter of a concatenation is the concatenation of the filters |
| Gateway.ListReply | slack-example/steps/api.step.ts:136-159 | `/list` always answers 200 ephemeral; it answers "You have no tasks." exactly when no task belongs to the user, whatever other users hold; otherwise "Your tasks:\n" and one line per task of the user, in store order, joined by newlines |
| Gateway.Handle | slack-example/steps/api.step.ts:35-177 | a missing token gives 401 Unauthorized and no event; only `/task`, `/reminder` and `/complete` emit, exactly one event each, with a 200 in-channel reply; `/task` and `/complete` carry the body's text, user and channel; `/reminder` carries the time token and remainder of the first-space split; a rejected hand-off gives 500 with its message or "Internal server error"; `/list` and other commands emit nothing |
| Gateway.ListReplyLines | slack-example/steps/api.step.ts:139-157 | when the user has tasks, the reply is "Your tasks:\n" followed by their lines joined by newlines, never the fixed "no tasks" text |
| Reminder.ScheduledNotification | slack-example/steps/reminder.step.ts:53-56 | a job that the handler schedules posts, when it fires with a bot token, a message in the event's channel that starts with the mention of the event's user and ends with the event's text |
| Reminder.Decide | slack-example/steps/reminder.step.ts:22-37 | an unparseable time is abandoned as "Invalid time format", a time not after now as "Reminder time must be in the future"; otherwise exactly one job is scheduled, for the event's channel, user and text, and the delay handed to the timer is positive and equal to the requested time minus now |
| Reminder.Fire | slack-example/steps/reminder.step.ts:39-67 | without a bot token nothing is posted and the error is logged; otherwise one request is posted to chat.postMessage with the bearer token, the job's channel and the rendered notification; an error is logged exactly when nothing was posted or the post failed, and nothing is retried |
| Reminder.TimerDelay | slack-example/steps/reminder.step.ts:39-67 | the wait a Node.js timer gives a requested delay lies between 1 ms and 2^31-1 ms, and equals the request exactly when the request is in that range |
| Reminder.LongReminderFiresEarly | slack-example/steps/reminder.step.ts:33-39 | a reminder more than 2^31-1 ms ahead is scheduled, but its single timer fires 1 ms later, before the requested instant |
| Reminder.LongReminderExample | slack-example/steps/reminder.step.ts:33-39 | a reminder for 2099-01-01T00:00:00Z requested in October 2025 is scheduled on a timer that fires after 1 ms |
| Reminder.TimerChain | slack-example/steps/reminder.step.ts:39-67 | a chain of timers for a positive delay is non-empty and each of its waits is one a Node.js timer honours |
| Reminder.TimerChainWaitsDelay | slack-example/steps/reminder.step.ts:39-67 | a chain of timers waits exactly the requested delay |
| Reminder.ScheduledFiresOnTime | slack-example/steps/reminder.step.ts:33-67 | with the delay run as a chain of timers, every scheduled reminder fires exactly at the requested instant, however far ahead |
| App.CreatedTaskIsListed | slack-example/steps/taskStorage.step.ts:36-44 | after a `/task` is delivered, the user's tasks are the earlier ones followed by the new pending task |
| App.ListAsWrittenShowsNoTasks | slack-example/steps/api.step.ts:12-20 | with the endpoint's own array, `/list` answers "You have no tasks." even though the store holds the user's task |
| App.ListTextEndsWithLast | slack-example/steps/api.step.ts:149-157 | the list text for a non-empty run of tasks ends with the line of the last one |
| App.ListEndsWithLastTask | slack-example/steps/api.step.ts:149-157 | when the user has tasks, the `/list` reply is not the fixed "no tasks" text and ends with the line of the user's last task in store order |
| App.ListShowsCreatedTask | slack-example/steps/api.step.ts:136-159 | with one shared store, `/list` after `/task` from the same user lists tasks and ends with the new task marked pending |
| App.TaskThenCompleteKeepsPending | slack-example/steps/taskStorage.step.ts:34-57 | on any store, `/task` then `/complete` of the same text from one user append the new pending task and leave the number of pending tasks with that text and user unchanged, the completion retiring the oldest |
| App.ListOneCompleted | slack-example/steps/api.step.ts:149-157 | a store holding one completed task of the user lists it as "Your tasks:\n" and one line with the completed glyph |
| App.CompleteThenList | slack-example/steps/api.step.ts:114-159 | on a fresh store, `/task`, `/complete` and `/list` from one user list exactly that task, marked completed |
| App.System.constructor | slack-example/steps/taskStorage.step.ts:5-12 | the shared store starts empty |
| App.System.Request | slack-example/steps/taskStorage.step.ts:21-28 | a request's reply is the endpoint's reply over the shared store; its event reaches the task store for `task_created` and `task_completed` and the reminder scheduler for `task_reminder`; the store keeps its history |

## Findings

| source | as written | input that shows it | evidently intended | confidence | as-written member | corrected member |
|---|---|---|---|---|---|---|
| slack-example/steps/api.step.ts:12-20 | `/list` filters a `tasks` array declared in the endpoint's own module, which nothing ever appends to; the task store appends to a different array | `/task buy milk` followed by `/list` from the same user answers "You have no tasks." | `/list` reads the store that `task_created` appends to (the comment on line 12 calls the array shared with the task store) | high; not executed | App.ListAsWrittenShowsNoTasks | App.ListShowsCreatedTask |
| slack-example/steps/reminder.step.ts:33-39 | the delay `time - now` goes unchanged to one `setTimeout`, which Node.js runs after 1 ms when the delay exceeds 2^31-1 ms | `/reminder 2099-01-01T00:00:00Z hello` sent in October 2025 | the reminder fires at the requested instant, for example by chaining timers of at most 2^31-1 ms | medium (Node.js timer behaviour); not executed | Reminder.LongReminderFiresEarly | Reminder.ScheduledFiresOnTime |

The rest of the composition (`App.System`) uses the corrected, shared store.
A scheduled job's delay is meant to be run as `Reminder.TimerChain`.

## Left out

- The step framework: routing, validation of the request and event schemas,
  and the asynchronous event bus. An emitted event is a returned value, and
  `App.System.Request` delivers it to its subscriber before the next request.
  Interleavings of concurrent handlers are not modelled.
- Clock and dates: `new Date().toISOString()`, the millisecond clock, parsing
  of the reminder time and `toLocaleString` are parameters (`now`, `clock`,
  `parse`, `render`).
- Task ids come from `Date.now()` and `Math.random()`. They are a parameter,
  and the model claims no uniqueness because the code does not guarantee it.
- Environment variables and request headers are `Option<string>` parameters.
  A header given as an array of values is not modelled.
- `emit` failing is the parameter `emitFault`. No other statement of the
  endpoint can throw on well-typed input, so the 500 path is modelled only for
  a rejected hand-off.
- The timer itself is not modelled. Only the delay passed to it is modelled,
  and the wait Node.js gives that delay (`Reminder.TimerDelay`; see Findings).
- Reminder.Fire: a `fetch` that rejects is folded into `responseOk == false`.
  The logged message then differs from the model's "Failed to send reminder".
- The logger: only the timer callback's outcome log is modelled.
- The `timestamp` field of a reminder and the `response_url` of a request are
  not used by the code, and the model does not use them either.
