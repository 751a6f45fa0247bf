/** The ability record with mutable fields, as the supervisor holds it. Each
    method performs one step of module Supervisor on those fields. */
module Brain {
  import opened Capabilities
  import opened Events
  import opened Supervisor

  class Ability {
    const name: string
    const impl: Impl
    const options: Options

    var ctx: Ctx
    var cycle: nat
    var watchers: map<nat, Watcher>
    var tasks: map<nat, Task>
    var events: seq<Event>
    var activations: seq<bool>
    var runs: nat
    /** Set while a call of On has dispatched but not yet sent Started. */
    var announcing: bool

    /** The fields as one value of the state machine. */
    function Snapshot(): State
      reads this
    {
      State(ctx, cycle, watchers, tasks, events, activations, runs, announcing)
    }

    ghost predicate Valid()
      reads this
    {
      Supervisor.Valid(Snapshot())
    }

    /** newAbility: the record starts without a context, so it is off. */
    constructor (name: string, impl: Impl, options: Options)
      ensures Valid() && Snapshot() == Initial()
      ensures this.name == name && this.impl == impl && this.options == options
    {
      this.name := name;
      this.impl := impl;
      this.options := options;
      ctx := NoCtx;
      cycle := 0;
      watchers := map[];
      tasks := map[];
      events := [];
      activations := [];
      runs := 0;
      announcing := false;
    }

    /** isOn: the predicate isOnUnsafe, read from the fields. */
    method IsOn() returns (on: bool)
      ensures on == Supervisor.IsOn(Snapshot())
    {
      on := ctx == Live;
    }

    /** on(): the switch and then the send, with no other step between. */
    method On()
      requires Valid() && !announcing
      modifies this
      ensures Valid()
      ensures Snapshot() == Supervisor.On(old(Snapshot()), impl, name)
    {
      Switch();
      Announce();
    }

    /** on() up to its send: a fresh context, one watcher and the dispatch. */
    method Switch()
      requires Valid() && !announcing
      modifies this
      ensures Valid()
      ensures Snapshot() == Supervisor.Switch(old(Snapshot()), impl)
    {
      var on := IsOn();
      if on {
        return;
      }
      cycle := cycle + 1;
      ctx := Live;
      watchers := watchers[cycle := Spawned];
      if impl.activable {
        OnActivable();
      } else if impl.runnable {
        OnRunnable();
      }
      announcing := true;
    }

    /** The send that ends on(): Started with the ability's name. */
    method Announce()
      requires Valid()
      modifies this`events, this`announcing
      ensures Valid()
      ensures Snapshot() == Supervisor.Announce(old(Snapshot()), name)
    {
      if announcing {
        events := events + [Event(Started, name)];
        announcing := false;
      }
    }

    /** onActivable: Activate(true) at once, and a waiter on this context. */
    method OnActivable()
      modifies this`activations, this`tasks
      ensures activations == old(activations) + [true]
      ensures tasks == old(tasks)[cycle := Waiting]
    {
      activations := activations + [true];
      tasks := tasks[cycle := Waiting];
    }

    /** onRunnable: Run is invoked in a goroutine on this context. */
    method OnRunnable()
      modifies this`runs, this`tasks
      ensures runs == old(runs) + 1
      ensures tasks == old(tasks)[cycle := Running]
    {
      runs := runs + 1;
      tasks := tasks[cycle := Running];
    }

    /** off(): only cancels the context; teardown is left to the watcher. */
    method Off()
      requires Valid()
      modifies this`ctx
      ensures Valid()
      ensures Snapshot() == Supervisor.Off(old(Snapshot()))
    {
      var on := IsOn();
      if !on {
        return;
      }
      ctx := Cancelled;
    }

    /** The watcher of switch-on k tests isOn, then returns or listens. */
    method WatcherStart(k: nat)
      requires Valid() && k in watchers && watchers[k] == Spawned
      modifies this`watchers
      ensures Valid()
      ensures Snapshot() == Supervisor.WatcherStart(old(Snapshot()), k)
    {
      var on := IsOn();
      if !on {
        watchers := watchers - {k};
        return;
      }
      watchers := watchers[k := Listening(cycle)];
    }

    /** The Run of switch-on k returns result. */
    method RunReturns(k: nat, result: Option<Error>)
      requires Valid() && k in tasks && tasks[k] == Running
      modifies this`tasks
      ensures Valid()
      ensures Snapshot() == Supervisor.RunReturns(old(Snapshot()), k, result)
    {
      tasks := tasks[k := Posting(result)];
    }

    /** The Activable waiter of switch-on k sees its context cancelled. */
    method WaiterWakes(k: nat)
      requires Valid() && k in tasks && tasks[k] == Waiting && CtxDone(Snapshot(), k)
      modifies this`activations, this`tasks
      ensures Valid()
      ensures Snapshot() == Supervisor.WaiterWakes(old(Snapshot()), k)
    {
      activations := activations + [false];
      tasks := tasks[k := Posting(None)];
    }

    /** Watcher w receives what the goroutine of switch-on k offers,
        classifies by the context and runs its deferred cancel. */
    method Receive(k: nat, w: nat)
      requires Valid() && k in tasks && tasks[k].Posting?
      requires w in watchers && watchers[w].Listening?
      modifies this`ctx, this`tasks, this`watchers, this`events
      ensures Valid()
      ensures Snapshot() == Supervisor.Receive(old(Snapshot()), k, w, name)
    {
      var cancels := watchers[w].cancels;
      tasks := tasks - {k};
      watchers := watchers - {w};
      var on := IsOn();
      if on {
        events := events + [Event(Crashed, name)];
      } else {
        events := events + [Event(Stopped, name)];
      }
      if cancels == cycle {
        ctx := Cancelled;
      }
    }
  }
}
