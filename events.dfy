/** The lifecycle events an ability sends to its event sink. */
module Events {

  datatype EventKind = Started | Stopped | Crashed

  /** One event as handed to the sink: its kind and the ability's name as payload. */
  datatype Event = Event(kind: EventKind, payload: string)

  /** Whether an event ends a cycle. */
  predicate IsTerminal(kind: EventKind) {
    kind != Started
  }

  /** How many events of a kind a log holds. */
  function Count(log: seq<Event>, kind: EventKind): nat {
    if log == [] then 0 else (if log[0].kind == kind then 1 else 0) + Count(log[1..], kind)
  }

  lemma {:induction false} CountAppend(a: seq<Event>, b: seq<Event>, kind: EventKind)
    ensures Count(a + b, kind) == Count(a, kind) + Count(b, kind)
    decreases |a|
  {
    if a == [] {
      assert a + b == b;
    } else {
      CountAppend(a[1..], b, kind);
      assert a + b != [] && (a + b)[0] == a[0];
      assert (a + b)[1..] == a[1..] + b;
    }
  }

  /** Appending one event adds one to the count of its kind only. */
  lemma CountPush(log: seq<Event>, e: Event, kind: EventKind)
    ensures Count(log + [e], kind) == Count(log, kind) + (if e.kind == kind then 1 else 0)
  {
    CountAppend(log, [e], kind);
    assert [e][1..] == [];
  }
}
