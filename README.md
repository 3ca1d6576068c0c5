# Promisque, modelled in Dafny

Promisque is a small jQuery promise queue (`promisque.js`). Callers push
callbacks with bound arguments. `run(count, mode)` then starts up to `count`
of them at a time in one of two modes:

- **batch mode** (any mode other than `"pipe"`): a cohort of tasks is waited
  on jointly, and when all of them succeed, `run` is called again;
- **pipe mode**: one lane per task. When a lane's task succeeds, the lane pulls
  the next queued task.

`pause`, `clear` and `stop` set the pause flag and/or empty the queue.

The project has four modules:

- `scheduler.dfy`, module `Scheduler`: the queue as a pure state machine. A
  `State` holds `stack`, `interrupt`, `mode`, the pipe `lanes` and the batch
  `cohorts`. There is one function per operation and one per completion
  event. `LaneSucceeds`/`LaneFails` are createPipe's `.then`.
  `CohortSucceeds`/`CohortFails` are the `$.when(...).then` of batch mode.
  Completions are explicit events that may fire in any order.
- `traces.dfy`, module `Traces`: any interleaving of calls and events (`Op`,
  `Step`, `Exec`), with the properties that hold along every run. These are
  FIFO order end to end, a pause flag that is never cleared, a sticky mode,
  stop's quiescence and the per-cohort bound.
- `inflight.dfy`, module `InFlight`: how many tasks are in flight in pipe mode.
- `promisque.dfy`, module `Promisque`: the object itself, as a class. Its
  fields are updated in place. Each method except `CreatePipe` is proved to move its
  state (`Model()`) exactly as the matching `Scheduler` function says;
  `CreatePipe` states its one-lane effect directly. `Run` keeps
  the source's lane loop `for (q = 0; q < count; q++)` as a `while` loop. Four
  client methods (`PipeClient`, `BatchClient`, `PushClient`, `FailureClient`)
  work through the pipe, batch, dropped-push and lane-failure scenarios.

Where the library's intended behaviour and its code disagree, the model
follows the code:

- `push` with a non-function first argument is silently dropped. No error is
  reported.
- Nothing ever resets `interrupt`. After `pause()` or `stop()`, every later
  `run` changes at most the mode (`Traces.PausedRunIsInert`), although the
  documentation comment at promisque.js:13 says that `run` resumes after pause.
- The pipe refill never reads `interrupt`. Pause does not stop lanes from
  pulling work. Stop stops them only by emptying the queue, and a task pushed
  after `stop` is still taken by a lane (`Scheduler.StoppedLaneStillPulls`).
- `count` bounds each `run` call, not the total in flight. A second pipe
  `run` adds lanes beside the busy ones (`InFlight.SecondRunExceedsCount`).
- In pipe mode, when `count` exceeds the queue length, the lane loop first
  starts a lane for every spliced task. It then throws a TypeError on
  `callbacks[q].callback`. This is the `ThrewTypeError` outcome of `Run`.
- The batch continuation calls `run(count, this.mode)` with the mode current
  when the cohort resolves. If a later call switched the queue to `"pipe"`,
  that continuation starts lanes
  (`Scheduler.ContinuationFollowsCurrentMode`).

## Model

| member | source | states |
|---|---|---|
| Scheduler.Push | promisque.js:53-69 | A call whose first argument is a function appends exactly one descriptor at the tail: that function plus the remaining arguments. Existing entries keep their places. Any other call leaves the whole state unchanged. |
| Scheduler.Next | promisque.js:72-84 | On a non-empty queue it returns the old head, and the old head followed by the new queue is the old queue. On an empty queue it returns None and changes nothing. Flag, mode and in-flight work are untouched. |
| Scheduler.SpliceCount | promisque.js:96 | `splice(0, count)` removes nothing for count <= 0, exactly count items when count fits, and the whole array when count reaches the length. |
| Scheduler.Run | promisque.js:87-121 | A given mode overwrites the sticky mode; an omitted one keeps it. An empty or paused queue changes nothing else. Otherwise exactly SpliceCount(count, length) tasks leave the head and the rest stays in order. In pipe mode they become new busy lanes, in dequeue order. In any other mode they become one pending cohort that remembers count. It throws exactly when a ready pipe run asks for more lanes than there are tasks. |
| Scheduler.LaneSucceeds | promisque.js:124-131 | A busy lane whose task succeeds takes the current head of the queue and leaves exactly the tail. On an empty queue it drains. Other lanes, cohorts, mode and flag are unchanged. |
| Scheduler.LaneFails | promisque.js:124-131 | A failed lane halts. Nothing else changes: no refill and no next(). |
| Scheduler.CohortSucceeds | promisque.js:109-115 | Joint success resolves the cohort (its tasks kept) and re-runs with the cohort's count and the current mode; mode and flag are unchanged. On an empty or paused queue only the settlement changes. Otherwise SpliceCount(count, length) tasks leave the head and the rest stays in order. If the current mode is not "pipe", they become one new pending cohort with the same count and the lanes are untouched. If it is "pipe", they become new busy lanes after the existing ones and no cohort is added. Either way every other cohort is unchanged. |
| Scheduler.ContinuationFollowsCurrentMode | promisque.js:111-115 | A cohort started in batch mode whose queue is then switched to "pipe" resolves into a new lane, not a new cohort. |
| Scheduler.CohortFails | promisque.js:109-115 | A failed cohort is marked rejected and nothing continues: the queue, lanes, mode and flag are unchanged. |
| Scheduler.Pause | promisque.js:134-139 | Sets the pause flag and changes nothing else. |
| Scheduler.Clear | promisque.js:152-159 | Empties the queue and changes nothing else, in-flight lanes and cohorts included. |
| Scheduler.Stop | promisque.js:142-149 | Leaves the flag set and the queue empty. Mode, lanes and cohorts are unchanged. |
| Scheduler.RefillIgnoresInterrupt | promisque.js:124-131 | A lane's refill gives the same result whatever the pause flag says. |
| Scheduler.StoppedLaneStillPulls | promisque.js:126-128 | After stop, a task pushed later is taken by the next busy lane that completes. |
| Traces.Step | promisque.js:53-159 | A push only appends its accepted descriptor. Every other call or event only removes a prefix of the queue. |
| Traces.StepFlags | promisque.js:87-139 | Only pause and stop change the flag, and only to true. Only a run given a mode changes the mode. |
| Traces.QueueOrder | promisque.js:53-159 | Along any interleaving of calls and events, everything removed from the queue, followed by what remains, equals the initial queue followed by every accepted push, in order. Items leave in push order. |
| Traces.InterruptNeverCleared | promisque.js:133-149 | After any run, the flag is set exactly when it was set before or the run contained a pause or stop. |
| Traces.PausedStartsNothing | promisque.js:93 | From a paused state, no run and no cohort continuation ever creates a lane or a cohort. |
| Traces.PausedRunIsInert | promisque.js:87-121 | After pause, whatever happens in between, a run returns normally and changes nothing but (possibly) the mode. |
| Traces.ModeSticky | promisque.js:90 | A run in which no run call passes a mode ends with the mode it started with. |
| Traces.StoppedStaysQuiet | promisque.js:141-159 | From an empty, paused queue with no further pushes, the queue stays empty. The numbers of lanes and cohorts stay the same. Every lane still busy holds the task it already had. |
| Traces.StopQuiesces | promisque.js:142-149 | After stop, with no further pushes, the queue stays empty and no lane or cohort takes on new work. |
| Traces.CohortsStayBounded | promisque.js:96-115 | Along any run, every cohort holds at most max(count, 0) tasks, where count is that of the run call that started it. |
| InFlight.RunStartsLanes | promisque.js:99-104 | A ready pipe run adds exactly SpliceCount(count, length) busy lanes to however many are already busy. |
| InFlight.LaneEventsAddNoWork | promisque.js:124-131 | A lane success keeps the busy count, or lowers it by one when the queue is empty. A lane failure lowers it by one. |
| InFlight.SecondRunExceedsCount | promisque.js:87-104 | Two pipe runs of count 1 over two queued tasks leave two lanes busy at once. |
| Promisque.Promisque.constructor | promisque.js:41-50 | A new object has an empty stack, no interrupt, no mode and nothing in flight. |
| Promisque.Promisque.Push | promisque.js:53-69 | Updates the stack in place exactly as Scheduler.Push. |
| Promisque.Promisque.Next | promisque.js:72-84 | Returns the item and leaves the state that Scheduler.Next gives. |
| Promisque.Promisque.CreatePipe | promisque.js:124-125 | Starts one more busy lane on the given task at slot q and changes nothing else. |
| Promisque.Promisque.Run | promisque.js:87-121 | Its loop over q builds exactly the lanes, stack, cohorts and outcome that Scheduler.Run gives, including the throw at the first missing callback. |
| Promisque.Promisque.Pause | promisque.js:134-139 | Moves the object as Scheduler.Pause. |
| Promisque.Promisque.Clear | promisque.js:152-159 | Moves the object as Scheduler.Clear. |
| Promisque.Promisque.Stop | promisque.js:142-149 | Pause then clear moves the object as Scheduler.Stop. |
| Promisque.Promisque.LaneSucceeds | promisque.js:125-130 | Calls next() and rebinds or drains the lane, as Scheduler.LaneSucceeds. |
| Promisque.Promisque.LaneFails | promisque.js:125 | Halts the lane, as Scheduler.LaneFails. |
| Promisque.Promisque.CohortSucceeds | promisque.js:111-115 | Resolves the cohort and calls Run(count, mode), as Scheduler.CohortSucceeds. |
| Promisque.Promisque.CohortFails | promisque.js:109-111 | Rejects the cohort and does nothing more, as Scheduler.CohortFails. |

## Left out

- jQuery's `$.when`, `$.proxy` and the promise objects: each task's completion is a success or failure event, fired in any order.
- Invoking `callback.apply(null, arguments)`: callbacks and their arguments are opaque values (a function reference and a sequence of values) that the model only stores and moves.
- A callback that throws synchronously, or that returns something without `.then` in pipe mode: the model assumes every callback returns a promise.
- Real timing and completion order among concurrent tasks: this is concurrency, so any event may fire next.
- The promise that createPipe returns, and the rejection a failed lane propagates along it: a failed lane is only marked Halted.
- Returning `this` for chaining: methods mutate the object and return nothing, except `Next` (the item) and `Run` (whether it threw).
- Scheduler.Run: `count` is an integer. Fractional, NaN or undefined counts are not modelled; JavaScript coerces these differently in `splice` and in the loop test.
- Scheduler.Run: modes are strings or absent (`undefined` and `null` alike). Non-string modes and the loose `==` coercion against `"pipe"` are not modelled.
- Scheduler.LaneSucceeds: an event addressed to a lane that is not busy (or to a cohort not pending, for the cohort events) leaves the state unchanged, so that traces need no enabledness condition. Such events cannot occur; the class methods require the lane or cohort to be in flight.
