/** Interleavings of the supervisor's steps: the caller's on() and off() and
    the goroutines' steps in any order the scheduler allows, including a
    switch-on before the previous cycle has drained, which the shared
    completion signal permits, and goroutine steps taken while on() is
    between dispatching and sending Started. */
module Schedules {
  import opened Capabilities
  import opened Events
  import opened Supervisor

  /** One step of the caller or of a goroutine, naming the switch-on whose
      watcher or task moves. Deliver(k, w): watcher w receives the result of
      the task of switch-on k. */
  datatype Step =
    | CallOn
    | SendStarted
    | CallOff
    | WatcherTests(k: nat)
    | RunEnds(k: nat, result: Option<Error>)
    | Wake(k: nat)
    | Deliver(k: nat, w: nat)

  /** Whether the goroutine a step names can take it: the step's
      precondition. CallOn is the part of on() up to its dispatch and
      SendStarted the send that ends it; the caller calls on() or off()
      only when no call of on() is unfinished. */
  predicate Enabled(s: State, step: Step) {
    match step
    case CallOn => !s.announcing
    case SendStarted => s.announcing
    case CallOff => !s.announcing
    case WatcherTests(k) => k in s.watchers && s.watchers[k] == Spawned
    case RunEnds(k, _) => k in s.tasks && s.tasks[k] == Running
    case Wake(k) => k in s.tasks && s.tasks[k] == Waiting && CtxDone(s, k)
    case Deliver(k, w) => k in s.tasks && s.tasks[k].Posting? && w in s.watchers && s.watchers[w].Listening?
  }

  function Apply(s: State, impl: Impl, name: string, step: Step): (r: State)
    requires Valid(s) && Enabled(s, step)
    ensures Valid(r)
    ensures step != CallOn && step != SendStarted ==> r.announcing == s.announcing
  {
    match step
    case CallOn => Switch(s, impl)
    case SendStarted => Announce(s, name)
    case CallOff => Off(s)
    case WatcherTests(k) => WatcherStart(s, k)
    case RunEnds(k, result) => RunReturns(s, k, result)
    case Wake(k) => WaiterWakes(s, k)
    case Deliver(k, w) => Receive(s, k, w, name)
  }

  /** The state after a schedule, or None when some step in it cannot be
      taken at its point. */
  function Execute(s: State, impl: Impl, name: string, steps: seq<Step>): (r: Option<State>)
    requires Valid(s)
    ensures r.Some? ==> Valid(r.value)
    decreases |steps|
  {
    if steps == [] then Some(s)
    else if !Enabled(s, steps[0]) then None
    else Execute(Apply(s, impl, name, steps[0]), impl, name, steps[1..])
  }

  /** How many terminal events a log holds. */
  function Terminals(log: seq<Event>): nat {
    Count(log, Stopped) + Count(log, Crashed)
  }

  /** Every terminal event and every watcher still alive is owed to a
      distinct Started event, sent or about to be sent by an unfinished
      on(): each switch-on spawns one watcher, and a watcher sends at most
      one terminal event and then is gone. */
  ghost predicate Balanced(s: State) {
    Terminals(s.events) + |s.watchers| <= Count(s.events, Started) + (if s.announcing then 1 else 0)
  }

  lemma InitialBalanced()
    ensures Balanced(Initial())
  {
  }

  lemma RemoveKeyCard<V>(m: map<nat, V>, k: nat)
    requires k in m
    ensures |m - {k}| == |m| - 1
  {
  }

  lemma SwitchBalanced(s: State, impl: Impl)
    requires Valid(s) && !s.announcing && Balanced(s)
    ensures Balanced(Switch(s, impl))
  {
    if !IsOn(s) {
      assert |Switch(s, impl).watchers| == |s.watchers| + 1;
    }
  }

  lemma AnnounceBalanced(s: State, name: string)
    requires Valid(s) && Balanced(s)
    ensures Balanced(Announce(s, name))
  {
    if s.announcing {
      CountPush(s.events, Event(Started, name), Started);
      CountPush(s.events, Event(Started, name), Stopped);
      CountPush(s.events, Event(Started, name), Crashed);
    }
  }

  lemma WatcherStartBalanced(s: State, k: nat)
    requires Valid(s) && k in s.watchers && s.watchers[k] == Spawned && Balanced(s)
    ensures Balanced(WatcherStart(s, k))
  {
  }

  lemma ReceiveBalanced(s: State, k: nat, w: nat, name: string)
    requires Valid(s) && k in s.tasks && s.tasks[k].Posting?
    requires w in s.watchers && s.watchers[w].Listening?
    requires Balanced(s)
    ensures Balanced(Receive(s, k, w, name))
  {
    var e := Event(if IsOn(s) then Crashed else Stopped, name);
    CountPush(s.events, e, Started);
    CountPush(s.events, e, Stopped);
    CountPush(s.events, e, Crashed);
    RemoveKeyCard(s.watchers, w);
  }

  lemma ApplyBalanced(s: State, impl: Impl, name: string, step: Step)
    requires Valid(s) && Enabled(s, step) && Balanced(s)
    ensures Balanced(Apply(s, impl, name, step))
  {
    match step
    case CallOn => SwitchBalanced(s, impl);
    case SendStarted => AnnounceBalanced(s, name);
    case CallOff =>
    case WatcherTests(k) => WatcherStartBalanced(s, k);
    case RunEnds(k, result) =>
    case Wake(k) =>
    case Deliver(k, w) => ReceiveBalanced(s, k, w, name);
  }

  /** Along any schedule, once on() has returned the log holds no
      more terminal events than Started events: no switch-on is reported
      as ended twice. While on() is unfinished, its cycle's terminal event
      may be ahead of its Started event by one. */
  lemma {:induction false} ExecuteBalanced(s: State, impl: Impl, name: string, steps: seq<Step>)
    requires Valid(s) && Balanced(s)
    ensures var r := Execute(s, impl, name, steps);
      r.Some? ==> (Balanced(r.value)
        && Terminals(r.value.events) <= Count(r.value.events, Started) + (if r.value.announcing then 1 else 0))
    decreases |steps|
  {
    if steps != [] && Enabled(s, steps[0]) {
      ApplyBalanced(s, impl, name, steps[0]);
      ExecuteBalanced(Apply(s, impl, name, steps[0]), impl, name, steps[1..]);
    }
  }

  /** The ordering promise: at every point of the log, as many Started
      events have been sent as terminal events. */
  ghost predicate StartedFirst(log: seq<Event>) {
    forall i | 0 <= i <= |log| :: Terminals(log[..i]) <= Count(log[..i], Started)
  }

  lemma StartedFirstPush(log: seq<Event>, e: Event)
    requires StartedFirst(log)
    requires IsTerminal(e.kind) ==> Terminals(log) < Count(log, Started)
    ensures StartedFirst(log + [e])
  {
    forall i | 0 <= i <= |log + [e]|
      ensures Terminals((log + [e])[..i]) <= Count((log + [e])[..i], Started)
    {
      if i <= |log| {
        assert (log + [e])[..i] == log[..i];
      } else {
        assert (log + [e])[..i] == log + [e];
        assert log[..|log|] == log;
        CountPush(log, e, Started);
        CountPush(log, e, Stopped);
        CountPush(log, e, Crashed);
      }
    }
  }

  /** As written: a Runnable is switched on, and before on() sends Started
      its watcher starts listening, its Run returns, whatever the result,
      and the watcher reports a crash. The log then reads Crashed before
      Started, and the ability is off although off() was never called. */
  lemma AsWrittenCrashBeforeStarted(impl: Impl, name: string, result: Option<Error>)
    requires Dispatch(impl) == Runnable
    ensures var r := Execute(Initial(), impl, name,
        [CallOn, WatcherTests(1), RunEnds(1, result), Deliver(1, 1), SendStarted]);
      && r.Some? && !IsOn(r.value) && !r.value.announcing
      && r.value.events == [Event(Crashed, name), Event(Started, name)]
      && !StartedFirst(r.value.events)
  {
    var steps := [CallOn, WatcherTests(1), RunEnds(1, result), Deliver(1, 1), SendStarted];
    var s1 := Switch(Initial(), impl);
    assert s1.watchers == map[1 := Spawned] && s1.tasks == map[1 := Running];
    var s2 := WatcherStart(s1, 1);
    assert s2.watchers == map[1 := Listening(1)];
    var s3 := RunReturns(s2, 1, result);
    assert s3.tasks == map[1 := Posting(result)] && s3.events == [];
    var s4 := Receive(s3, 1, 1, name);
    assert s4.events == [Event(Crashed, name)] && s4.announcing;
    var s5 := Announce(s4, name);
    assert Execute(s5, impl, name, steps[5..]) == Some(s5);
    assert Execute(s4, impl, name, steps[4..]) == Some(s5);
    assert Execute(s3, impl, name, steps[3..]) == Some(s5);
    assert Execute(s2, impl, name, steps[2..]) == Some(s5);
    assert Execute(s1, impl, name, steps[1..]) == Some(s5);
    var first := s5.events[..1];
    assert first == [Event(Crashed, name)];
    assert first == [] + [Event(Crashed, name)];
    CountPush([], Event(Crashed, name), Started);
    CountPush([], Event(Crashed, name), Stopped);
    CountPush([], Event(Crashed, name), Crashed);
  }

  /** Corrected: on() sends Started before it starts any goroutine, so a
      call of on() is one step, On, between goroutine steps. */
  function ExecuteSendingFirst(s: State, impl: Impl, name: string, steps: seq<Step>): (r: Option<State>)
    requires Valid(s) && !s.announcing
    ensures r.Some? ==> Valid(r.value) && !r.value.announcing
    decreases |steps|
  {
    if steps == [] then Some(s)
    else if steps[0] == CallOn then ExecuteSendingFirst(On(s, impl, name), impl, name, steps[1..])
    else if steps[0] == SendStarted || !Enabled(s, steps[0]) then None
    else ExecuteSendingFirst(Apply(s, impl, name, steps[0]), impl, name, steps[1..])
  }

  /** With the send first, every schedule keeps the ordering promise: no
      terminal event is ever ahead of the Started events. */
  lemma {:induction false} SendingFirstKeepsOrder(s: State, impl: Impl, name: string, steps: seq<Step>)
    requires Valid(s) && !s.announcing && Balanced(s) && StartedFirst(s.events)
    ensures var r := ExecuteSendingFirst(s, impl, name, steps);
      r.Some? ==> Balanced(r.value) && StartedFirst(r.value.events)
    decreases |steps|
  {
    if steps == [] {
    } else if steps[0] == CallOn {
      SwitchBalanced(s, impl);
      AnnounceBalanced(Switch(s, impl), name);
      if !IsOn(s) {
        StartedFirstPush(s.events, Event(Started, name));
      }
      SendingFirstKeepsOrder(On(s, impl, name), impl, name, steps[1..]);
    } else if steps[0] != SendStarted && Enabled(s, steps[0]) {
      ApplyBalanced(s, impl, name, steps[0]);
      var r := Apply(s, impl, name, steps[0]);
      if steps[0].Deliver? {
        var e := Event(if IsOn(s) then Crashed else Stopped, name);
        assert r.events == s.events + [e];
        StartedFirstPush(s.events, e);
      } else {
        assert r.events == s.events;
      }
      SendingFirstKeepsOrder(r, impl, name, steps[1..]);
    }
  }

  /** What an Activable's goroutines satisfy: there is no Run, a waiter has
      either not woken or has posted nil, and it woke only once its
      context was cancelled. */
  ghost predicate ActivableTasks(s: State) {
    forall k | k in s.tasks :: s.tasks[k] == Waiting || (s.tasks[k] == Posting(None) && CtxDone(s, k))
  }

  lemma ApplyActivable(s: State, impl: Impl, name: string, step: Step)
    requires Valid(s) && Enabled(s, step) && ActivableTasks(s) && Dispatch(impl) == Activable
    ensures ActivableTasks(Apply(s, impl, name, step))
    ensures Apply(s, impl, name, step).runs == s.runs
  {
  }

  /** Along any schedule an Activable is never Run and its goroutines keep
      the shape above. */
  lemma {:induction false} ExecuteActivable(s: State, impl: Impl, name: string, steps: seq<Step>)
    requires Valid(s) && ActivableTasks(s) && Dispatch(impl) == Activable
    ensures var r := Execute(s, impl, name, steps);
      r.Some? ==> ActivableTasks(r.value) && r.value.runs == s.runs
    decreases |steps|
  {
    if steps != [] && Enabled(s, steps[0]) {
      ApplyActivable(s, impl, name, steps[0]);
      ExecuteActivable(Apply(s, impl, name, steps[0]), impl, name, steps[1..]);
    }
  }

  /** So when the completion of an Activable's current switch-on is
      delivered, the context is cancelled and the cycle ends as Stopped,
      whichever watcher receives it. */
  lemma ActivableCurrentStops(s: State, impl: Impl, name: string, w: nat)
    requires Valid(s) && ActivableTasks(s) && Dispatch(impl) == Activable
    requires Enabled(s, Deliver(s.cycle, w))
    ensures Apply(s, impl, name, Deliver(s.cycle, w)).events == s.events + [Event(Stopped, name)]
    ensures !IsOn(Apply(s, impl, name, Deliver(s.cycle, w)))
  {
  }
}
