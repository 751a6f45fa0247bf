# Ability supervisor of the astibob brain

This project models the supervisor that switches one pluggable ability of a
brain on and off (`brain/ability.go`). It proves properties of that model.

An ability is "on" exactly when its record holds a cancellation context that
has not been cancelled.

- `on()` does nothing when the ability is on. Otherwise it:
  - installs a fresh context;
  - starts a watcher goroutine;
  - dispatches the implementation: an Activable gets `Activate(true)` and a
    waiter goroutine; otherwise a Runnable gets its `Run` started in a
    goroutine; otherwise nothing is dispatched;
  - sends `ability.started` with the ability's name, last. The watcher and
    the dispatched goroutine are already running at that point, so they can
    move before the send.
- `off()` does nothing when the ability is off. Otherwise it only cancels the
  context.
- The watcher (`wait`):
  - returns at once if the ability is off when it starts;
  - otherwise defers the record's cancel function;
  - receives one result from the shared completion channel;
  - classifies by the record's context, never by the result: still live
    means `ability.crashed`, cancelled means `ability.stopped`;
  - then runs the deferred cancel.

The model has five modules.

- `Capabilities` (capabilities.dfy): the implementation's shape and the
  dispatch priority.
- `Events` (events.dfy): the three lifecycle events and counting over an
  event log.
- `Supervisor` (supervisor.dfy): the supervisor as a state machine.
  - Every goroutine step is an explicit transition, a function from one state
    to the next: the watcher's isOn test, a Run returning, the Activable
    waiter waking, and the watcher receiving a result.
  - Watchers and tasks are kept per switch-on, numbered from 1, in maps.
  - The event sink is an append-only log. The Activate calls and the number
    of Run calls are logs too.
- `Brain` (brain.dfy): the class `Ability`.
  - Its fields are those of the state. One extra field, `announcing`, marks
    an on() that has dispatched but not yet sent Started.
  - Each method performs one step in place and is proved equal to the
    corresponding `Supervisor` function of the old fields.
- `Cycles` (cycles.dfy): complete on/off cycles, each drained by its own
  watcher before the next switch-on. It proves the N-cycle counts and the
  order of events.
- `Schedules` (schedules.dfy): interleavings of the steps. on() is two
  steps here, the switch and the send, and goroutine steps can fall between
  them. It proves for every schedule:
  - once on() has returned, no switch-on is reported as ended twice;
  - an Activable is never Run, and the completion of its current cycle
    always ends as a clean stop.

  It also exhibits a schedule whose log reads Crashed before Started (see
  Findings). It proves that a corrected on(), which sends before it starts
  any goroutine, never lets a terminal event get ahead of the Started
  events.
- `StaleCompletion` (stale.dfy): a late result judged against a newer
  session, for a Runnable and for an Activable. See Findings.

Where the system's documented contract and the code disagree, the model
follows the code.
- The contract calls for a one-shot completion signal created together with
  each context and never reused. In the code the completion channel is
  created once, in `newAbility` (`brain/ability.go:47`), and is shared by
  every cycle. The model therefore lets any listening watcher receive any
  posted result.
- The contract promises that Started is observable before any terminal event
  of the same cycle. In the code on() sends Started only after it has
  started the watcher and the work (`brain/ability.go:79-93`). The model
  keeps that order.

## Model

| member | source | states |
|---|---|---|
| Capabilities.Dispatch | brain/ability.go:83-87 | Activable wins whenever the implementation is Activable, even if it is also Runnable; Runnable is chosen only when it is not Activable; neither shape means nothing is dispatched |
| Supervisor.Initial | brain/ability.go:44-52 | a new ability has no context, so it is off; there are no goroutines, no events and no calls |
| Supervisor.IsOn | brain/ability.go:55-57 | on exactly when a context exists and has not been cancelled |
| Supervisor.Switch | brain/ability.go:67-87 | when on, nothing changes; otherwise the ability is on with context number cycle+1 and a new watcher not yet started, nothing is sent yet, and on() is marked unfinished; an Activable gets Activate(true) and a waiter and no Run; a Runnable gets one Run; neither shape: no work, still on |
| Supervisor.Announce | brain/ability.go:89-93 | an unfinished on() sends exactly one Started event carrying the name, whatever the goroutines did meanwhile, and is then finished; otherwise nothing changes |
| Supervisor.On | brain/ability.go:67-94 | on() with no goroutine step inside it: when on, nothing changes; otherwise the ability is on with context number cycle+1, a new watcher not yet started, and exactly one Started event carrying the name; an Activable gets Activate(true) and a waiter and no Run; a Runnable gets one Run; neither shape: no work, still on |
| Supervisor.Off | brain/ability.go:145-158 | when off, nothing changes; when on, the context is cancelled and nothing else changes, so no event is sent |
| Supervisor.WatcherStart | brain/ability.go:118-125 | when the ability is not on, the watcher is gone and nothing else changes; otherwise it listens and holds the cancel of the current switch-on |
| Supervisor.RunReturns | brain/ability.go:110-115 | the Run of switch-on k offers its result, whichever it is; nothing else changes |
| Supervisor.WaiterWakes | brain/ability.go:97-107 | possible only once the waiter's context is cancelled; it appends Activate(false), then offers nil |
| Supervisor.Receive | brain/ability.go:118-142 | exactly one event is sent: Crashed when the context is live, Stopped when it is cancelled; the task and the watcher are consumed; the context is cancelled exactly when the deferred cancel is the current one's |
| Supervisor.ClassificationIgnoresResult | brain/ability.go:128-140 | the same delivery with any two results, nil or not, gives the same state |
| Brain.Ability.constructor | brain/ability.go:44-52 | the fields are the initial state, so the ability is off; name, implementation and options are kept |
| Brain.Ability.IsOn | brain/ability.go:55-64 | the answer is Supervisor.IsOn of the fields: a context exists and has not been cancelled |
| Brain.Ability.On | brain/ability.go:67-94 | the switch and then the send; the new fields are Supervisor.On of the old ones |
| Brain.Ability.Switch | brain/ability.go:67-87 | the new fields are Supervisor.Switch of the old ones |
| Brain.Ability.Announce | brain/ability.go:89-93 | the new fields are Supervisor.Announce of the old ones |
| Brain.Ability.OnActivable | brain/ability.go:97-107 | appends Activate(true) and adds a waiter for the current switch-on |
| Brain.Ability.OnRunnable | brain/ability.go:110-115 | counts one Run and adds a running task for the current switch-on |
| Brain.Ability.Off | brain/ability.go:145-158 | the new fields are Supervisor.Off of the old ones |
| Brain.Ability.WatcherStart | brain/ability.go:118-125 | the new fields are Supervisor.WatcherStart of the old ones |
| Brain.Ability.RunReturns | brain/ability.go:110-115 | the new fields are Supervisor.RunReturns of the old ones |
| Brain.Ability.WaiterWakes | brain/ability.go:97-107 | the new fields are Supervisor.WaiterWakes of the old ones |
| Brain.Ability.Receive | brain/ability.go:118-142 | the new fields are Supervisor.Receive of the old ones |
| Cycles.SwitchedOn | brain/ability.go:67-125 | from a quiescent state: on, one Started event, the watcher listening with its own cancel, and the dispatched work |
| Cycles.ActivableCycle | brain/ability.go:97-142 | an Activable cycle calls Activate(true) then Activate(false), never Run, sends Started then Stopped, and ends quiescent |
| Cycles.StoppedRunCycle | brain/ability.go:110-142 | a Run that returns after off(), with any result, even an error: Started then Stopped, one Run call, ends quiescent |
| Cycles.CrashedRunCycle | brain/ability.go:110-158 | a Run that returns before off(), with any result, even nil: Started then Crashed; the watcher's cancel switches the ability off, so the later off() changes nothing |
| Cycles.InertCycle | brain/ability.go:83-94 | an implementation with neither shape: Started only, no calls; off() ends the cycle with no terminal event |
| Cycles.Cycle | brain/ability.go:67-158 | one cycle sends the cycle's log, calls Activate or Run as its shape prescribes, and ends quiescent |
| Cycles.RunCycles | brain/ability.go:67-158 | repeated cycles end quiescent, one switch-on per cycle |
| Cycles.CyclesEvents | brain/ability.go:67-158 | N cycles append exactly the concatenation of the N per-cycle logs |
| Cycles.CyclesActivations | brain/ability.go:97-107 | N cycles append the Activate arguments of N cycles |
| Cycles.CyclesRuns | brain/ability.go:110-115 | a Runnable is Run once per cycle; any other shape is never Run |
| Cycles.CallsAlternate | brain/ability.go:97-107 | an Activable's Activate arguments alternate true, false, two per cycle; other shapes are never activated |
| Cycles.LogCounts | brain/ability.go:93-139 | N cycles send N Started events and, unless inert, N terminal events; Crashed occurs only for a Runnable, once per Run that returned before off() |
| Cycles.LogAlternates | brain/ability.go:93-139 | in each cycle's log, Started is immediately followed by that cycle's one terminal event |
| Schedules.Apply | brain/ability.go:67-158 | every step keeps the state well formed |
| Schedules.Execute | brain/ability.go:67-158 | any schedule keeps the state well formed |
| Schedules.InitialBalanced | brain/ability.go:44-52 | a new ability owes no events |
| Schedules.ApplyBalanced | brain/ability.go:67-142 | every step keeps terminal events plus live watchers at most the Started events, counting the Started event an unfinished on() owes |
| Schedules.ExecuteBalanced | brain/ability.go:67-142 | along any schedule of these steps, once on() has returned there are never more terminal events than Started events; while on() is unfinished the terminal events can be one ahead |
| Schedules.AsWrittenCrashBeforeStarted | brain/ability.go:79-93 | as written, a Runnable whose Run returns before on() sends, with any result, is reported as crashed first: the log is Crashed then Started, the ordering promise fails, and the ability is off |
| Schedules.ExecuteSendingFirst | brain/ability.go:67-94 | corrected: on() is one step that sends before any goroutine moves, so no schedule leaves on() unfinished |
| Schedules.SendingFirstKeepsOrder | brain/ability.go:67-142 | corrected: along any schedule, every prefix of the log holds at least as many Started events as terminal events |
| Schedules.ApplyActivable | brain/ability.go:97-107 | for an Activable, every step keeps each task a waiter, or a nil post whose context is cancelled, and never Runs |
| Schedules.ExecuteActivable | brain/ability.go:83-107 | along any schedule an Activable is never Run, even if it is also Runnable |
| Schedules.ActivableCurrentStops | brain/ability.go:102-139 | delivering an Activable's current switch-on ends as Stopped and leaves the ability off |
| StaleCompletion.WatcherStartOwn | brain/ability.go:118-125 | corrected: the watcher tests its own context and defers its own cancel |
| StaleCompletion.ReceiveOwn | brain/ability.go:127-141 | corrected: the watcher consumes its own task's result |
| StaleCompletion.ReceiveOwnJudgesOwnCycle | brain/ability.go:127-141 | corrected: Crashed exactly when the cycle's own session was still on; afterwards its context is cancelled; a late result of an older cycle leaves the current session as it was |
| StaleCompletion.CurrentCycleAgrees | brain/ability.go:127-141 | for the current cycle's own watcher and task, the corrected delivery equals the delivery as written |
| StaleCompletion.StartAgrees | brain/ability.go:118-125 | for the current switch-on, the corrected watcher start equals the start as written |
| StaleCompletion.LateResult | brain/ability.go:67-158 | the schedule on, off, on, then the first Run returns nil: both cycles have started and the second is on |
| StaleCompletion.AsWrittenLateResultCrashes | brain/ability.go:127-141 | as written, the late nil is reported as Crashed; if the newer watcher receives it, the newer session is switched off |
| StaleCompletion.CorrectedLateResultStops | brain/ability.go:127-141 | corrected, the late nil is reported as Stopped and the newer session stays on |
| StaleCompletion.LateActivable | brain/ability.go:67-158 | the schedule on, off, the first watcher finds the ability off, the waiter posts nil, on, the second watcher listens: Activate(true, false, true), both cycles started, the second on |
| StaleCompletion.AsWrittenLateActivableCrashes | brain/ability.go:97-141 | as written, the newer watcher receives the older Activable cycle's nil, reports Crashed, and switches the newer session off |
| StaleCompletion.CorrectedLateActivableUnheard | brain/ability.go:97-141 | corrected, no posted result has a watcher of its own, so nothing is reported and the newer session stays on |

## Left out

- Goroutine scheduling, the mutex and the completion channel. Each goroutine step is an explicit transition, and module Schedules covers interleavings of those transitions. Receiving is a single step.
- The window between the locked isOn test in on() and the unlocked assignment of the context (brain/ability.go:69-77). It is a data race, and the two steps are modelled as one.
- Concurrent on() calls from several callers. This follows from the race above.
- Logging through astilog and errors.Wrapf. It is diagnostic only.
- The websocket transport. A send is modelled as appending (kind, name) to the event log.
- The internals of the context package. A context is one of none, live or cancelled, and the model keeps only the latest one. `CtxDone` treats every earlier context as cancelled. That holds because on() replaces only a context that is no longer live (brain/ability.go:69-77).
- The Init interface and AutoStart. The supervisor uses neither; the options are only stored.
- The event-name strings. on() and the watcher send constants defined in a websocket file, which is not part of this model. An event is its kind.
- abilities/understanding/understanding.go. It holds only interface declarations and string constants.
- Run's reaction to its context. Run belongs to the implementation, so it may return any result at any time; a Run that ignores cancellation never returns.
- Supervisor.On: the Run and waiter goroutines read the record's context when they get to it. In the model each task is bound to the switch-on that dispatched it; a waiter that reads a newer context is not modelled.
- Cycles.InertCycle: the watcher of an implementation with neither shape listens forever. It is left in the state, and nothing makes it exit.

## Findings

| source | as written | input that shows it | evidently intended | confidence | as-written member | corrected member |
|---|---|---|---|---|---|---|
| brain/ability.go:127-141 | The watcher receives from a channel shared by every cycle. It judges the result against the record's current context and defers the cancel that the record held when the watcher started. | A Runnable: on(), its watcher starts, off(), on(), the second watcher starts, then the first Run returns nil. | A run that ends after its own off() is a clean stop, and it leaves the newer session alone. | not executed | StaleCompletion.AsWrittenLateResultCrashes | StaleCompletion.ReceiveOwnJudgesOwnCycle |
| brain/ability.go:79-93 | on() starts the watcher and the work, and only then sends Started. Nothing stops the goroutines from finishing first. | A Runnable whose Run returns at once: on() starts the watcher, the watcher passes its isOn test, Run returns, the watcher finds the context live and sends Crashed, and its deferred cancel switches the ability off; then on() sends Started. | Started is observable before any terminal event of its cycle. | not executed | Schedules.AsWrittenCrashBeforeStarted | Schedules.SendingFirstKeepsOrder |
| brain/ability.go:97-141 | The same shared channel for an Activable. A waiter whose own watcher has already returned posts into the channel, and the next cycle's watcher receives the post. | An Activable: on(), off() at once, the first watcher finds it off and returns, the first waiter posts nil, on(), the second watcher starts and receives that nil. | An Activable's cycle ends only in a clean stop, and it never ends a newer session. | not executed | StaleCompletion.AsWrittenLateActivableCrashes | StaleCompletion.ReceiveOwnJudgesOwnCycle |
