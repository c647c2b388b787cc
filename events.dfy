/** The event dispatcher the state machine publishes its lifecycle events
    to, reduced to what can be observed from the outside: the ordered trace
    of the events dispatched to it, and which events have a listener that
    raises. Delivery to the listeners themselves is not modelled. */
module Events {

  /** The lifecycle events of a listenable state machine. */
  datatype EventName = Initialize | PreTransition | PostTransition

  /** The event object listeners receive: one that refers to the machine,
      or the blank event the dispatcher creates when none is passed. */
  datatype Payload = BlankEvent | StateMachineEvent(machine: object)

  datatype Dispatched = Dispatched(name: EventName, payload: Payload)

  class EventDispatcher {
    /** Every dispatch made to this dispatcher, oldest first. */
    var trace: seq<Dispatched>
    /** The events that have a listener which raises when called. */
    const failing: set<EventName>

    constructor (failing: set<EventName>)
      ensures trace == [] && this.failing == failing
    {
      trace := [];
      this.failing := failing;
    }

    /** Dispatches `name` to its listeners. The dispatch is recorded even
        when a listener raises; `delivered` is false in that case. */
    method Dispatch(name: EventName, payload: Payload) returns (delivered: bool)
      modifies this`trace
      ensures trace == old(trace) + [Dispatched(name, payload)]
      ensures delivered <==> name !in failing
    {
      trace := trace + [Dispatched(name, payload)];
      delivered := name !in failing;
    }
  }
}
