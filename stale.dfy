/** A completion that belongs to a cycle already switched off, delivered
    after the ability was switched on again. As written every watcher reads
    the record's current context and the cancel function the record held when
    it started, and shares one completion signal with every other cycle. The
    late result is then judged against the newer session: it is reported as a
    crash although its own cycle was switched off, and the watcher that
    receives it may switch the newer session off. The corrected steps below
    give each watcher its own switch-on: its own context, its own cancel and
    its own task's result. */
module StaleCompletion {
  import opened Capabilities
  import opened Events
  import opened Supervisor

  /** The corrected start of the watcher of switch-on k: it tests its own
      context and defers its own cancel. */
  function WatcherStartOwn(s: State, k: nat): (r: State)
    requires Valid(s) && k in s.watchers && s.watchers[k] == Spawned
    ensures Valid(r)
    ensures !CtxDone(s, k) ==> r.watchers == s.watchers[k := Listening(k)]
    ensures CtxDone(s, k) ==> r.watchers == s.watchers - {k}
    ensures r == s.(watchers := r.watchers)
  {
    if CtxDone(s, k) then s.(watchers := s.watchers - {k})
    else s.(watchers := s.watchers[k := Listening(k)])
  }

  /** The corrected delivery: the watcher of switch-on k receives the result
      of the task of switch-on k, judges it by that switch-on's context and
      cancels that context only. */
  function ReceiveOwn(s: State, k: nat, name: string): (r: State)
    requires Valid(s) && k in s.tasks && s.tasks[k].Posting?
    requires k in s.watchers && s.watchers[k].Listening?
    ensures Valid(r)
    ensures r.tasks == s.tasks - {k} && r.watchers == s.watchers - {k}
  {
    var kind := if CtxDone(s, k) then Stopped else Crashed;
    s.(ctx := if k == s.cycle then Cancelled else s.ctx,
       tasks := s.tasks - {k},
       watchers := s.watchers - {k},
       events := s.events + [Event(kind, name)])
  }

  /** The intended behaviour: a cycle is reported as crashed exactly when its
      work ended while that cycle was still on; afterwards its context is
      cancelled; and a late result of an older cycle leaves the current
      session as it was. */
  lemma ReceiveOwnJudgesOwnCycle(s: State, k: nat, name: string)
    requires Valid(s) && k in s.tasks && s.tasks[k].Posting?
    requires k in s.watchers && s.watchers[k].Listening?
    ensures var r := ReceiveOwn(s, k, name);
      && r.events == s.events + [Event(if CtxDone(s, k) then Stopped else Crashed, name)]
      && (r.events[|s.events|].kind == Crashed <==> k == s.cycle && IsOn(s))
      && CtxDone(r, k)
      && (k < s.cycle ==> r.ctx == s.ctx && (IsOn(r) <==> IsOn(s)))
  {
  }

  /** For the current cycle's own watcher and task, the corrected steps are
      the steps as written: the drained cycles of module Cycles are the same
      under either. */
  lemma CurrentCycleAgrees(s: State, name: string)
    requires Valid(s) && s.cycle in s.tasks && s.tasks[s.cycle].Posting?
    requires s.cycle in s.watchers && s.watchers[s.cycle] == Listening(s.cycle)
    ensures Receive(s, s.cycle, s.cycle, name) == ReceiveOwn(s, s.cycle, name)
  {
  }

  lemma StartAgrees(s: State)
    requires Valid(s) && s.cycle in s.watchers && s.watchers[s.cycle] == Spawned
    ensures WatcherStart(s, s.cycle) == WatcherStartOwn(s, s.cycle)
  {
  }

  /** The schedule that shows the discrepancy, up to the late delivery: a
      Runnable is switched on, its watcher starts listening, it is switched
      off and at once on again, the second watcher starts listening, and
      only then does the first Run return nil. */
  function LateResult(impl: Impl, name: string): (s: State)
    requires Dispatch(impl) == Runnable
    ensures Valid(s) && IsOn(s) && s.cycle == 2
    ensures s.events == [Event(Started, name), Event(Started, name)]
    ensures s.tasks == map[1 := Posting(None), 2 := Running]
    ensures s.watchers == map[1 := Listening(1), 2 := Listening(2)]
  {
    var s1 := On(Initial(), impl, name);
    var s2 := WatcherStart(s1, 1);
    var s3 := Off(s2);
    var s4 := On(s3, impl, name);
    var s5 := WatcherStart(s4, 2);
    RunReturns(s5, 1, None)
  }

  /** As written: whichever watcher receives the late nil, the first cycle,
      which off() ended, is reported as crashed; and when the newer watcher
      receives it, its deferred cancel switches the newer session off
      although off() was never called for it. */
  lemma AsWrittenLateResultCrashes(impl: Impl, name: string)
    requires Dispatch(impl) == Runnable
    ensures var s := LateResult(impl, name);
      && Receive(s, 1, 1, name).events == s.events + [Event(Crashed, name)]
      && Receive(s, 1, 2, name).events == s.events + [Event(Crashed, name)]
      && !IsOn(Receive(s, 1, 2, name))
  {
  }

  /** Corrected: the late nil ends the first cycle as Stopped, and the newer
      session stays on. */
  lemma CorrectedLateResultStops(impl: Impl, name: string)
    requires Dispatch(impl) == Runnable
    ensures var s := LateResult(impl, name);
      && ReceiveOwn(s, 1, name).events == s.events + [Event(Stopped, name)]
      && IsOn(ReceiveOwn(s, 1, name))
  {
  }

  /** The same discrepancy for an Activable: it is switched on and at once
      off, so its watcher finds it off and returns without listening; its
      waiter wakes and posts nil; it is switched on again and the second
      watcher starts listening. */
  function LateActivable(impl: Impl, name: string): (s: State)
    requires Dispatch(impl) == Activable
    ensures Valid(s) && IsOn(s) && s.cycle == 2
    ensures s.events == [Event(Started, name), Event(Started, name)]
    ensures s.activations == [true, false, true]
    ensures s.tasks == map[1 := Posting(None), 2 := Waiting]
    ensures s.watchers == map[2 := Listening(2)]
  {
    var s1 := On(Initial(), impl, name);
    var s2 := Off(s1);
    var s3 := WatcherStart(s2, 1);
    var s4 := WaiterWakes(s3, 1);
    var s5 := On(s4, impl, name);
    WatcherStart(s5, 2)
  }

  /** As written: the newer watcher receives the first cycle's nil, judges
      it against its own live context and reports a crash, although an
      Activable only ever posts after its context is cancelled; its
      deferred cancel then switches the newer session off. */
  lemma AsWrittenLateActivableCrashes(impl: Impl, name: string)
    requires Dispatch(impl) == Activable
    ensures var s := LateActivable(impl, name);
      && Receive(s, 1, 2, name).events == s.events + [Event(Crashed, name)]
      && !IsOn(Receive(s, 1, 2, name))
  {
  }

  /** Corrected: the first cycle's watcher is gone, so no posted result has
      a watcher of its own to receive it (ReceiveOwn cannot be taken), and
      the newer session stays on until its own waiter posts. */
  lemma CorrectedLateActivableUnheard(impl: Impl, name: string)
    requires Dispatch(impl) == Activable
    ensures var s := LateActivable(impl, name);
      && IsOn(s)
      && (forall k | k in s.tasks && s.tasks[k].Posting? :: k !in s.watchers)
  {
  }
}
