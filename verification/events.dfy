/** The event vocabulary shared by the slash-command gateway and its two
    subscribers (the task store and the reminder scheduler). */
module Events {
  import opened Wrappers

  const TaskCreated := "task_created"
  const TaskReminder := "task_reminder"
  const TaskCompleted := "task_completed"

  /** Payload of `task_created` and `task_completed`; also the input the task
      store's handler accepts. */
  datatype TaskInput = TaskInput(text: string, user: string, channel: string, timestamp: string)

  /** Payload of `task_reminder`; the reminder scheduler's input. */
  datatype ReminderInput = ReminderInput(text: string, user: string, channel: string, time: string, timestamp: string)

  datatype Payload = TaskData(task: TaskInput) | ReminderData(reminder: ReminderInput)

  /** What the gateway hands to `emit`: a topic and its payload. */
  datatype Event = Event(topic: string, data: Payload)

  /** JavaScript truthiness of a string that may be undefined: both an absent
      value and the empty string are falsy. */
  predicate Present(s: Option<string>) {
    s.Some? && s.value != ""
  }
}
