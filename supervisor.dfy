/** The ability supervisor as a state machine. Every goroutine of the source is
    made an explicit step, and each step is a function from the state before
    it to the state after it. The class in module Brain performs the same
    steps on mutable fields. */
module Supervisor {
  import opened Capabilities
  import opened Events

  datatype Option<T> = None | Some(value: T)

  /** The error a Runnable's Run returns; only whether one is present matters. */
  datatype Error = Error(message: string)

  /** The record's cancellation context: unset before the first switch-on,
      afterwards the latest context, live or cancelled. */
  datatype Ctx = NoCtx | Live | Cancelled

  /** The watcher goroutine (wait) started by a switch-on: it has not yet
      tested isOn, or it is blocked on the completion signal holding the
      cancel function of switch-on `cancels`, which it deferred. */
  datatype Watcher = Spawned | Listening(cancels: nat)

  /** The goroutine dispatch started for a switch-on: a Runnable's Run that
      has not returned, an Activable's waiter blocked on its context, or
      either of them blocked handing its result to a watcher. */
  datatype Task = Running | Waiting | Posting(result: Option<Error>)

  /** Everything the supervisor and its goroutines hold. Switch-ons are
      numbered from 1; `cycle` is the number of the last one, whose context
      `ctx` is. Watchers and tasks are keyed by the switch-on that started
      them. `events` is what went to the event sink, `activations` the
      arguments of the Activate calls and `runs` the number of Run calls,
      each in order. `announcing` holds while a call of on() has started
      the new session's goroutines but has not yet sent Started. */
  datatype State = State(
    ctx: Ctx,
    cycle: nat,
    watchers: map<nat, Watcher>,
    tasks: map<nat, Task>,
    events: seq<Event>,
    activations: seq<bool>,
    runs: nat,
    announcing: bool)

  /** isOnUnsafe: a context exists and has not been cancelled. */
  predicate IsOn(s: State): (on: bool)
    ensures on <==> s.ctx != NoCtx && s.ctx != Cancelled
  {
    s.ctx == Live
  }

  /** Whether the context of switch-on k is cancelled. A switch-on only
      replaces a context that is cancelled, so every earlier one is. */
  predicate CtxDone(s: State, k: nat) {
    k < s.cycle || s.ctx == Cancelled
  }

  /** What every reachable state satisfies: a context exists exactly once a
      switch-on has happened, and every key and every deferred cancel names
      a switch-on that has happened. */
  ghost predicate Valid(s: State) {
    && (s.ctx == NoCtx <==> s.cycle == 0)
    && (forall k | k in s.watchers :: 1 <= k <= s.cycle)
    && (forall k | k in s.watchers && s.watchers[k].Listening? :: 1 <= s.watchers[k].cancels <= s.cycle)
    && (forall k | k in s.tasks :: 1 <= k <= s.cycle)
  }

  /** newAbility: no context, no goroutine, nothing sent. */
  function Initial(): (s: State)
    ensures Valid(s) && !IsOn(s)
    ensures s.cycle == 0 && s.watchers == map[] && s.tasks == map[]
    ensures s.events == [] && s.activations == [] && s.runs == 0 && !s.announcing
  {
    State(NoCtx, 0, map[], map[], [], [], 0, false)
  }

  /** The part of on() before its send: a no-op when already on. Otherwise
      a fresh live context, a new watcher, and the dispatched work:
      Activate(true) and a waiter for an Activable, one Run for a Runnable,
      nothing otherwise. Nothing is sent yet; the goroutines can move before
      the send. */
  function Switch(s: State, impl: Impl): (r: State)
    requires Valid(s) && !s.announcing
    ensures Valid(r)
    ensures IsOn(s) ==> r == s
    ensures !IsOn(s) ==>
      && IsOn(r) && r.announcing && r.events == s.events
      && r.cycle == s.cycle + 1
      && r.cycle !in s.watchers && r.watchers == s.watchers[r.cycle := Spawned]
    ensures !IsOn(s) && Dispatch(impl) == Activable ==>
      && r.cycle !in s.tasks && r.tasks == s.tasks[r.cycle := Waiting]
      && r.activations == s.activations + [true] && r.runs == s.runs
    ensures !IsOn(s) && Dispatch(impl) == Runnable ==>
      && r.cycle !in s.tasks && r.tasks == s.tasks[r.cycle := Running]
      && r.activations == s.activations && r.runs == s.runs + 1
    ensures !IsOn(s) && Dispatch(impl) == Inert ==>
      r.tasks == s.tasks && r.activations == s.activations && r.runs == s.runs
  {
    if IsOn(s) then s
    else
      var k := s.cycle + 1;
      var dispatched := match Dispatch(impl)
        case Activable => s.(activations := s.activations + [true], tasks := s.tasks[k := Waiting])
        case Runnable => s.(runs := s.runs + 1, tasks := s.tasks[k := Running])
        case Inert => s;
      dispatched.(ctx := Live, cycle := k, watchers := s.watchers[k := Spawned], announcing := true)
  }

  /** The send that ends on(): exactly one Started event carrying the name,
      sent whatever was dispatched and whatever the goroutines did since;
      nothing when on() returned early. */
  function Announce(s: State, name: string): (r: State)
    requires Valid(s)
    ensures Valid(r) && !r.announcing
    ensures s.announcing ==> r == s.(events := s.events + [Event(Started, name)], announcing := false)
    ensures !s.announcing ==> r == s
  {
    if s.announcing then s.(events := s.events + [Event(Started, name)], announcing := false) else s
  }

  /** on() with no goroutine step between its two parts: a no-op when
      already on; otherwise the ability is on with a fresh context, a new
      watcher, the dispatched work and exactly one Started event. */
  function On(s: State, impl: Impl, name: string): (r: State)
    requires Valid(s) && !s.announcing
    ensures Valid(r) && IsOn(r) && !r.announcing
    ensures IsOn(s) ==> r == s
    ensures !IsOn(s) ==>
      && r.cycle == s.cycle + 1
      && r.cycle !in s.watchers && r.watchers == s.watchers[r.cycle := Spawned]
      && r.events == s.events + [Event(Started, name)]
    ensures !IsOn(s) && Dispatch(impl) == Activable ==>
      && r.cycle !in s.tasks && r.tasks == s.tasks[r.cycle := Waiting]
      && r.activations == s.activations + [true] && r.runs == s.runs
    ensures !IsOn(s) && Dispatch(impl) == Runnable ==>
      && r.cycle !in s.tasks && r.tasks == s.tasks[r.cycle := Running]
      && r.activations == s.activations && r.runs == s.runs + 1
    ensures !IsOn(s) && Dispatch(impl) == Inert ==>
      r.tasks == s.tasks && r.activations == s.activations && r.runs == s.runs
  {
    Announce(Switch(s, impl), name)
  }

  /** off(): a no-op when already off; otherwise it cancels the context and
      does nothing else: no event, no teardown. */
  function Off(s: State): (r: State)
    requires Valid(s)
    ensures Valid(r) && !IsOn(r)
    ensures !IsOn(s) ==> r == s
    ensures IsOn(s) ==> r.ctx == Cancelled && r == s.(ctx := Cancelled)
  {
    if IsOn(s) then s.(ctx := Cancelled) else s
  }

  /** The start of wait() for the watcher of switch-on k: it tests isOn. When
      off it returns and is gone; otherwise it defers the cancel function the
      record holds at that moment, that of the last switch-on, and listens. */
  function WatcherStart(s: State, k: nat): (r: State)
    requires Valid(s) && k in s.watchers && s.watchers[k] == Spawned
    ensures Valid(r)
    ensures IsOn(s) ==> r.watchers == s.watchers[k := Listening(s.cycle)]
    ensures !IsOn(s) ==> r.watchers == s.watchers - {k}
    ensures r == s.(watchers := r.watchers)
  {
    if IsOn(s) then s.(watchers := s.watchers[k := Listening(s.cycle)])
    else s.(watchers := s.watchers - {k})
  }

  /** The Run of switch-on k returns result and offers it on the completion
      signal. Run belongs to the implementation: any result, at any time. */
  function RunReturns(s: State, k: nat, result: Option<Error>): (r: State)
    requires Valid(s) && k in s.tasks && s.tasks[k] == Running
    ensures Valid(r)
    ensures r.tasks == s.tasks[k := Posting(result)]
    ensures r == s.(tasks := r.tasks)
  {
    s.(tasks := s.tasks[k := Posting(result)])
  }

  /** The Activable waiter of switch-on k wakes, which it can do only once
      that context is cancelled: it calls Activate(false), then offers a nil
      result on the completion signal. */
  function WaiterWakes(s: State, k: nat): (r: State)
    requires Valid(s) && k in s.tasks && s.tasks[k] == Waiting && CtxDone(s, k)
    ensures Valid(r)
    ensures r.activations == s.activations + [false]
    ensures r.tasks == s.tasks[k := Posting(None)]
    ensures r == s.(activations := r.activations, tasks := r.tasks)
  {
    s.(activations := s.activations + [false], tasks := s.tasks[k := Posting(None)])
  }

  /** The rest of wait(): the listening watcher w receives the result offered
      by the goroutine of switch-on k. It classifies by the record's context
      and not by the result: still live means Crashed, cancelled means
      Stopped, exactly one event either way. Then its deferred cancel runs,
      which cancels the context only when it is the current one's. */
  function Receive(s: State, k: nat, w: nat, name: string): (r: State)
    requires Valid(s) && k in s.tasks && s.tasks[k].Posting?
    requires w in s.watchers && s.watchers[w].Listening?
    ensures Valid(r)
    ensures r.events == s.events + [Event(if IsOn(s) then Crashed else Stopped, name)]
    ensures r.ctx == (if s.watchers[w].cancels == s.cycle then Cancelled else s.ctx)
    ensures r.tasks == s.tasks - {k} && r.watchers == s.watchers - {w}
    ensures r == s.(ctx := r.ctx, tasks := r.tasks, watchers := r.watchers, events := r.events)
  {
    var kind := if IsOn(s) then Crashed else Stopped;
    s.(ctx := if s.watchers[w].cancels == s.cycle then Cancelled else s.ctx,
       tasks := s.tasks - {k},
       watchers := s.watchers - {w},
       events := s.events + [Event(kind, name)])
  }

  /** The classification looks at the context and never at the result: the
      same delivery with any two results leads to the same state. */
  lemma ClassificationIgnoresResult(s: State, k: nat, w: nat, name: string, e1: Option<Error>, e2: Option<Error>)
    requires Valid(s) && k in s.tasks && s.tasks[k].Posting?
    requires w in s.watchers && s.watchers[w].Listening?
    ensures Receive(s.(tasks := s.tasks[k := Posting(e1)]), k, w, name)
         == Receive(s.(tasks := s.tasks[k := Posting(e2)]), k, w, name)
  {
  }
}
