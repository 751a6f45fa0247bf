/** Complete on/off cycles run one after another, each drained by its own
    watcher before the next switch-on: the schedule in which every cycle
    yields one Started event and, when there is work, one terminal event. */
module Cycles {
  import opened Capabilities
  import opened Events
  import opened Supervisor

  /** How the Run of a Runnable ends within its cycle: after off() cancelled
      its context, or on its own while the ability is still on. */
  datatype RunEnd = AfterOff(result: Option<Error>) | OnItsOwn(result: Option<Error>)

  /** Between cycles: off, no goroutine left that can still act, and no
      watcher that has not tested isOn yet. Watchers that are listening may
      remain: nothing is ever offered to the watcher of an inert
      implementation. */
  ghost predicate Quiescent(s: State) {
    && Valid(s)
    && !IsOn(s)
    && !s.announcing
    && s.tasks == map[]
    && (forall k | k in s.watchers :: s.watchers[k].Listening?)
  }

  /** The terminal event a cycle ends with, if any: an Activable always stops
      cleanly; a Runnable crashes exactly when Run returned before off(),
      whatever it returned; an inert implementation never ends. */
  function Terminal(shape: Shape, end: RunEnd): Option<EventKind> {
    match shape
    case Activable => Some(Stopped)
    case Runnable => Some(if end.OnItsOwn? then Crashed else Stopped)
    case Inert => None
  }

  /** The events one cycle sends. */
  function CycleLog(shape: Shape, end: RunEnd, name: string): seq<Event> {
    [Event(Started, name)] + match Terminal(shape, end) {
      case Some(kind) => [Event(kind, name)]
      case None => []
    }
  }

  /** The Activate arguments one cycle produces: true at switch-on and
      false once the waiter sees the context cancelled, for an Activable. */
  function CycleCalls(shape: Shape): seq<bool> {
    if shape == Activable then [true, false] else []
  }

  /** The Activate arguments a sequence of cycles produces. */
  function Calls(shape: Shape, ends: seq<RunEnd>): seq<bool> {
    if ends == [] then [] else CycleCalls(shape) + Calls(shape, ends[1..])
  }

  /** The events a sequence of cycles sends. */
  function Log(shape: Shape, ends: seq<RunEnd>, name: string): seq<Event> {
    if ends == [] then [] else CycleLog(shape, ends[0], name) + Log(shape, ends[1..], name)
  }

  /** The first half of every cycle: on() from a quiescent state, and the
      new watcher passes its isOn test and defers the new cancel. */
  function SwitchedOn(s: State, impl: Impl, name: string): (r: State)
    requires Quiescent(s)
    ensures Valid(r) && IsOn(r) && !r.announcing && r.cycle == s.cycle + 1
    ensures r.watchers == s.watchers[r.cycle := Listening(r.cycle)]
    ensures r.events == s.events + [Event(Started, name)]
    ensures Dispatch(impl) == Activable ==>
      r.tasks == map[r.cycle := Waiting] && r.activations == s.activations + [true] && r.runs == s.runs
    ensures Dispatch(impl) == Runnable ==>
      r.tasks == map[r.cycle := Running] && r.activations == s.activations && r.runs == s.runs + 1
    ensures Dispatch(impl) == Inert ==>
      r.tasks == map[] && r.activations == s.activations && r.runs == s.runs
  {
    var s1 := On(s, impl, name);
    WatcherStart(s1, s1.cycle)
  }

  /** An Activable: off(), then its waiter calls Activate(false) and offers
      nil, and the watcher stops cleanly. */
  function ActivableCycle(s: State, impl: Impl, name: string): (r: State)
    requires Quiescent(s) && Dispatch(impl) == Activable
    ensures Quiescent(r) && r.cycle == s.cycle + 1
    ensures r.events == s.events + [Event(Started, name), Event(Stopped, name)]
    ensures r.activations == s.activations + [true, false] && r.runs == s.runs
  {
    var s1 := SwitchedOn(s, impl, name);
    var s2 := Off(s1);
    var s3 := WaiterWakes(s2, s1.cycle);
    var r := Receive(s3, s1.cycle, s1.cycle, name);
    assert r.tasks == map[];
    r
  }

  /** A Runnable whose Run returns result after off(): a clean stop. */
  function StoppedRunCycle(s: State, impl: Impl, name: string, result: Option<Error>): (r: State)
    requires Quiescent(s) && Dispatch(impl) == Runnable
    ensures Quiescent(r) && r.cycle == s.cycle + 1
    ensures r.events == s.events + [Event(Started, name), Event(Stopped, name)]
    ensures r.activations == s.activations && r.runs == s.runs + 1
  {
    var s1 := SwitchedOn(s, impl, name);
    var s2 := Off(s1);
    var s3 := RunReturns(s2, s1.cycle, result);
    var r := Receive(s3, s1.cycle, s1.cycle, name);
    assert r.tasks == map[];
    r
  }

  /** A Runnable whose Run returns result while the ability is on: a crash,
      whose deferred cancel switches the ability off by itself, so the off()
      that follows finds it already off and changes nothing. */
  function CrashedRunCycle(s: State, impl: Impl, name: string, result: Option<Error>): (r: State)
    requires Quiescent(s) && Dispatch(impl) == Runnable
    ensures var s1 := SwitchedOn(s, impl, name);
      var s3 := Receive(RunReturns(s1, s1.cycle, result), s1.cycle, s1.cycle, name);
      !IsOn(s3) && r == s3
    ensures Quiescent(r) && r.cycle == s.cycle + 1
    ensures r.events == s.events + [Event(Started, name), Event(Crashed, name)]
    ensures r.activations == s.activations && r.runs == s.runs + 1
  {
    var s1 := SwitchedOn(s, impl, name);
    var s2 := RunReturns(s1, s1.cycle, result);
    var s3 := Receive(s2, s1.cycle, s1.cycle, name);
    assert s3.tasks == map[];
    Off(s3)
  }

  /** An inert implementation: off() cancels, and its watcher listens on. */
  function InertCycle(s: State, impl: Impl, name: string): (r: State)
    requires Quiescent(s) && Dispatch(impl) == Inert
    ensures Quiescent(r) && r.cycle == s.cycle + 1
    ensures r.events == s.events + [Event(Started, name)]
    ensures r.activations == s.activations && r.runs == s.runs
  {
    Off(SwitchedOn(s, impl, name))
  }

  /** One cycle: on(), the watcher tests isOn, then what the implementation
      does, as the functions above set out. */
  function Cycle(s: State, impl: Impl, name: string, end: RunEnd): (r: State)
    requires Quiescent(s)
    ensures Quiescent(r)
    ensures r.cycle == s.cycle + 1
    ensures r.events == s.events + CycleLog(Dispatch(impl), end, name)
    ensures r.activations == s.activations + CycleCalls(Dispatch(impl))
    ensures r.runs == s.runs + (if Dispatch(impl) == Runnable then 1 else 0)
  {
    match Dispatch(impl)
    case Activable => ActivableCycle(s, impl, name)
    case Runnable =>
      (match end
       case AfterOff(result) => StoppedRunCycle(s, impl, name, result)
       case OnItsOwn(result) => CrashedRunCycle(s, impl, name, result))
    case Inert => InertCycle(s, impl, name)
  }

  /** Cycles one after another, one for each element of ends. */
  function RunCycles(s: State, impl: Impl, name: string, ends: seq<RunEnd>): (r: State)
    requires Quiescent(s)
    ensures Quiescent(r)
    ensures r.cycle == s.cycle + |ends|
    decreases |ends|
  {
    if ends == [] then s
    else RunCycles(Cycle(s, impl, name, ends[0]), impl, name, ends[1..])
  }

  /** The first cycle, and then the rest. */
  lemma CyclesUnfold(s: State, impl: Impl, name: string, ends: seq<RunEnd>)
    requires Quiescent(s) && ends != []
    ensures RunCycles(s, impl, name, ends) == RunCycles(Cycle(s, impl, name, ends[0]), impl, name, ends[1..])
  {
  }

  lemma SeqAssoc<T>(a: seq<T>, b: seq<T>, c: seq<T>)
    ensures a + b + c == a + (b + c)
  {
  }

  /** Repeated cycles send exactly the per-cycle logs, in order. */
  lemma {:induction false} CyclesEvents(s: State, impl: Impl, name: string, ends: seq<RunEnd>)
    requires Quiescent(s)
    ensures RunCycles(s, impl, name, ends).events == s.events + Log(Dispatch(impl), ends, name)
    decreases |ends|
  {
    if ends != [] {
      var s1 := Cycle(s, impl, name, ends[0]);
      CyclesEvents(s1, impl, name, ends[1..]);
      CyclesUnfold(s, impl, name, ends);
      SeqAssoc(s.events, CycleLog(Dispatch(impl), ends[0], name), Log(Dispatch(impl), ends[1..], name));
    }
  }

  /** Repeated cycles call Activate(true) and then Activate(false) once per
      cycle of an Activable, and never otherwise. */
  lemma {:induction false} CyclesActivations(s: State, impl: Impl, name: string, ends: seq<RunEnd>)
    requires Quiescent(s)
    ensures RunCycles(s, impl, name, ends).activations == s.activations + Calls(Dispatch(impl), ends)
    decreases |ends|
  {
    if ends != [] {
      var s1 := Cycle(s, impl, name, ends[0]);
      CyclesActivations(s1, impl, name, ends[1..]);
      CyclesUnfold(s, impl, name, ends);
      SeqAssoc(s.activations, CycleCalls(Dispatch(impl)), Calls(Dispatch(impl), ends[1..]));
    }
  }

  /** Repeated cycles call Run once per cycle of a Runnable, and never
      otherwise. */
  lemma {:induction false} CyclesRuns(s: State, impl: Impl, name: string, ends: seq<RunEnd>)
    requires Quiescent(s)
    ensures RunCycles(s, impl, name, ends).runs == s.runs + (if Dispatch(impl) == Runnable then |ends| else 0)
    decreases |ends|
  {
    if ends != [] {
      var s1 := Cycle(s, impl, name, ends[0]);
      CyclesRuns(s1, impl, name, ends[1..]);
      CyclesUnfold(s, impl, name, ends);
    }
  }

  /** An Activable's Activate calls alternate true, false, starting with true,
      two per cycle; other implementations are never activated. */
  lemma {:induction false} CallsAlternate(shape: Shape, ends: seq<RunEnd>)
    ensures |Calls(shape, ends)| == (if shape == Activable then 2 * |ends| else 0)
    ensures forall i | 0 <= i < |Calls(shape, ends)| :: Calls(shape, ends)[i] == (i % 2 == 0)
    decreases |ends|
  {
    if ends != [] {
      CallsAlternate(shape, ends[1..]);
      var rest := Calls(shape, ends[1..]);
      if shape == Activable {
        assert Calls(shape, ends) == [true, false] + rest;
        forall i | 2 <= i < 2 * |ends|
          ensures Calls(shape, ends)[i] == (i % 2 == 0)
        {
          assert Calls(shape, ends)[i] == rest[i - 2];
        }
      }
    }
  }

  /** How many cycles end with Run returning on its own. */
  function OwnEnds(ends: seq<RunEnd>): nat {
    if ends == [] then 0 else (if ends[0].OnItsOwn? then 1 else 0) + OwnEnds(ends[1..])
  }

  /** N cycles send N Started events and, unless the implementation is
      inert, N terminal events; only a Runnable crashes, once for each cycle
      whose Run returned before off(). */
  lemma {:induction false} LogCounts(shape: Shape, ends: seq<RunEnd>, name: string)
    ensures var log := Log(shape, ends, name);
      && Count(log, Started) == |ends|
      && Count(log, Stopped) + Count(log, Crashed) == (if shape == Inert then 0 else |ends|)
      && Count(log, Crashed) == (if shape == Runnable then OwnEnds(ends) else 0)
    decreases |ends|
  {
    if ends != [] {
      var head := CycleLog(shape, ends[0], name);
      LogCounts(shape, ends[1..], name);
      CountAppend(head, Log(shape, ends[1..], name), Started);
      CountAppend(head, Log(shape, ends[1..], name), Stopped);
      CountAppend(head, Log(shape, ends[1..], name), Crashed);
      match Terminal(shape, ends[0])
      case Some(kind) =>
        assert head == [Event(Started, name), Event(kind, name)];
        assert head[1..][1..] == [];
      case None =>
        assert head == [Event(Started, name)];
        assert head[1..] == [];
    }
  }

  /** Each cycle's Started event comes right before that cycle's terminal
      event, so no cycle ends twice and none ends before it started. */
  lemma {:induction false} LogAlternates(shape: Shape, ends: seq<RunEnd>, name: string, i: nat)
    requires shape != Inert && i < |ends|
    ensures var log := Log(shape, ends, name);
      && |log| == 2 * |ends|
      && log[2 * i] == Event(Started, name)
      && log[2 * i + 1].kind == Terminal(shape, ends[i]).value
      && IsTerminal(log[2 * i + 1].kind)
    decreases |ends|
  {
    var rest := Log(shape, ends[1..], name);
    if i == 0 {
      if |ends| > 1 {
        LogAlternates(shape, ends[1..], name, 0);
      }
    } else {
      LogAlternates(shape, ends[1..], name, i - 1);
      assert Log(shape, ends, name) == CycleLog(shape, ends[0], name) + rest;
      assert ends[1..][i - 1] == ends[i];
    }
  }
}
