/** The reminder subscriber: decides whether a `task_reminder` event becomes
    one deferred message, and what that message does when its timer fires.
    The timer and the HTTP call are not modelled; the decision and the request
    that would be sent are returned as values. */
module Reminder {
  import opened Wrappers
  import opened Events
  import Text

  const InvalidTimeFormat := "Invalid time format"
  const NotInFuture := "Reminder time must be in the future"
  const BotTokenNotSet := "SLACK_BOT_TOKEN not set"
  const SendFailed := "Failed to send reminder"
  const PostMessageUrl := "https://slack.com/api/chat.postMessage"

  /** One deferred delivery: wait `delay` milliseconds, then notify `user` in `channel`. */
  datatype Job = Job(delay: int, channel: string, user: string, text: string)

  /** The handler's outcome: the error it logs, or the one job it schedules. */
  datatype Decision = Abandoned(reason: string) | Scheduled(job: Job)

  /** The chat message a job posts. */
  function Notification(user: string, text: string): string {
    "\U{23F0} Reminder for <@" + user + ">: " + text
  }

  /** The reminder handler at wall-clock instant `now` (milliseconds), given
      the instant `instant` that `input.time` parses to (None when the time is
      not a valid date). */
  function Decide(input: ReminderInput, instant: Option<int>, now: int): (d: Decision)
    ensures d.Scheduled? <==> instant.Some? && instant.value > now
    ensures instant.None? ==> d == Abandoned(InvalidTimeFormat)
    ensures instant.Some? && instant.value <= now ==> d == Abandoned(NotInFuture)
    // the delay handed to the timer is the requested instant minus now; the job keeps the event's channel, user and text
    ensures d.Scheduled? ==>
      d.job.delay > 0 && now + d.job.delay == instant.value &&
      d.job.channel == input.channel && d.job.user == input.user && d.job.text == input.text
  {
    match instant
    case None => Abandoned(InvalidTimeFormat)
    case Some(reminderTime) =>
      var delay := reminderTime - now;
      if delay <= 0 then Abandoned(NotInFuture)
      else Scheduled(Job(delay, input.channel, input.user, input.text))
  }

  /** The `chat.postMessage` request a firing job sends. */
  datatype Post = Post(url: string, authorization: string, channel: string, text: string)

  datatype Log = Info(message: string) | Error(context: string, message: string)

  /** What happens when a job's timer fires: the request posted, if any, and
      the one line logged. */
  datatype Firing = Firing(post: Option<Post>, log: Log)

  /** The timer callback, given the bot token from the environment and whether
      the chat API answered with success. */
  function Fire(job: Job, botToken: Option<string>, responseOk: bool): (f: Firing)
    ensures f.post.None? <==> !Present(botToken)
    ensures f.post.Some? ==>
      f.post.value.url == PostMessageUrl && f.post.value.authorization == "Bearer " + botToken.value &&
      f.post.value.channel == job.channel && f.post.value.text == Notification(job.user, job.text)
    // failures are logged and never retried: at most one request per firing
    ensures f.log.Error? <==> f.post.None? || !responseOk
    ensures !Present(botToken) ==> f.log == Error("Error sending reminder:", BotTokenNotSet)
  {
    if !Present(botToken) then
      Firing(None, Error("Error sending reminder:", BotTokenNotSet))
    else
      var post := Post(PostMessageUrl, "Bearer " + botToken.value, job.channel, Notification(job.user, job.text));
      if !responseOk then Firing(Some(post), Error("Error sending reminder:", SendFailed))
      else Firing(Some(post), Info("Reminder sent to user " + job.user + ": " + job.text))
  }

  /** A job that `Decide` schedules posts, when it fires with a bot token, a
      message in the event's channel that mentions the event's user and ends
      with the event's text. */
  lemma ScheduledNotification(input: ReminderInput, instant: Option<int>, now: int,
                              botToken: Option<string>, responseOk: bool)
    requires Decide(input, instant, now).Scheduled? && Present(botToken)
    ensures
      var post := Fire(Decide(input, instant, now).job, botToken, responseOk).post;
      var mention := "\U{23F0} Reminder for <@" + input.user + ">: ";
      post.Some? && post.value.channel == input.channel &&
      |mention| <= |post.value.text| && post.value.text[..|mention|] == mention &&
      Text.EndsWith(post.value.text, input.text)
  {
    var mention := "\U{23F0} Reminder for <@" + input.user + ">: ";
    var text := Notification(input.user, input.text);
    assert text == mention + input.text;
    assert text[|text| - |input.text|..] == input.text;
  }

  /** The longest delay a Node.js timer honours, 2^31-1 milliseconds. */
  const MaxTimerDelay := 0x7FFF_FFFF

  /** The delay Node.js's `setTimeout` actually waits for a requested delay:
      a delay above `MaxTimerDelay` (or below 1) is replaced by 1 ms. */
  function TimerDelay(delay: int): (d: int)
    ensures 1 <= d <= MaxTimerDelay
    ensures 1 <= delay <= MaxTimerDelay <==> d == delay
  {
    if delay > MaxTimerDelay || delay < 1 then 1 else delay
  }

  /** As written, the delay goes to one timer unchanged: a reminder more than
      about 24.8 days ahead is scheduled, yet its timer fires after 1 ms,
      long before the requested instant. */
  lemma LongReminderFiresEarly(input: ReminderInput, instant: int, now: int)
    requires instant - now > MaxTimerDelay
    ensures Decide(input, Some(instant), now).Scheduled?
    ensures now + TimerDelay(Decide(input, Some(instant), now).job.delay) == now + 1 < instant
  {
  }

  /** The same on 2099-01-01T00:00:00Z requested on 2025-10-09. */
  lemma LongReminderExample(input: ReminderInput)
    ensures
      var d := Decide(input, Some(4070908800000), 1760000000000);
      d.Scheduled? && TimerDelay(d.job.delay) == 1
  {
    LongReminderFiresEarly(input, 4070908800000, 1760000000000);
  }

  /** The waits of a chain of timers covering `delay`: whole `MaxTimerDelay`
      steps, then the remainder. */
  function TimerChain(delay: int): (waits: seq<int>)
    requires delay > 0
    ensures |waits| > 0
    ensures forall i :: 0 <= i < |waits| ==> 1 <= waits[i] <= MaxTimerDelay
    decreases delay
  {
    if delay <= MaxTimerDelay then [delay] else [MaxTimerDelay] + TimerChain(delay - MaxTimerDelay)
  }

  /** The total time a chain of Node.js timers waits. */
  function ChainWait(waits: seq<int>): int {
    if |waits| == 0 then 0 else TimerDelay(waits[0]) + ChainWait(waits[1..])
  }

  /** A chain of timers waits exactly the requested delay. */
  lemma {:induction false} TimerChainWaitsDelay(delay: int)
    requires delay > 0
    ensures ChainWait(TimerChain(delay)) == delay
    decreases delay
  {
    if delay > MaxTimerDelay {
      TimerChainWaitsDelay(delay - MaxTimerDelay);
      assert TimerChain(delay)[1..] == TimerChain(delay - MaxTimerDelay);
    }
  }

  /** With the job's delay run as a chain of timers, every scheduled reminder
      fires exactly at the requested instant, however far ahead it is. */
  lemma ScheduledFiresOnTime(input: ReminderInput, instant: Option<int>, now: int)
    requires Decide(input, instant, now).Scheduled?
    ensures now + ChainWait(TimerChain(Decide(input, instant, now).job.delay)) == instant.value
  {
    TimerChainWaitsDelay(Decide(input, instant, now).job.delay);
  }
}
