/** The event-aware state machine: a state machine that, around its parent's
    `initialize` and `apply`, dispatches lifecycle events to an event
    dispatcher.

    The parent state machine is not part of this model. What it does when
    called is a parameter of each operation (`Outcome`), and the calls it
    receives are kept in a journal (`baseCalls`). A PHP exception, whether a
    listener or the parent raises it, or the fatal error of calling a method
    on a missing dispatcher, ends the operation; it is modelled as a
    `Failure` result. */
module Listenable {
  import opened Php
  import opened Events

  /** How the parent's operation ends: it returns a value or raises. */
  datatype Outcome = Returned(value: Value) | Raised

  /** Why an operation of the listenable machine does not complete. */
  datatype Failure =
    | NoDispatcher                    // no dispatcher was set: calling `dispatch` on null
    | ListenerRaised(event: EventName) // a listener of this event raised
    | ParentRaised                    // the parent's operation raised

  /** A call received by the parent state machine. */
  datatype BaseCall = BaseInitialize | BaseApply(transition: string)

  /** What one operation does, as seen from outside: the events it
      dispatches, in order, whether the parent is called, and its result.
      `initialize` returns nothing, which PHP reads as null. */
  datatype Call = Call(dispatched: seq<EventName>, parentCalled: bool, result: Result<Value, Failure>)

  /** `initialize`: the parent initialises first; only then is the
      initialize event dispatched. */
  function InitializeCall(hasDispatcher: bool, failing: set<EventName>, parent: Outcome): (c: Call)
    ensures c.parentCalled
    ensures Initialize in c.dispatched <==> hasDispatcher && parent.Returned?
    ensures c.dispatched == [] || c.dispatched == [Initialize]
    ensures c.result.Ok? <==> hasDispatcher && parent.Returned? && Initialize !in failing
    ensures c.result.Ok? ==> c.result.value == Null
    ensures parent.Raised? ==> c.result == Err(ParentRaised)
    ensures parent.Returned? && !hasDispatcher ==> c.result == Err(NoDispatcher)
    ensures parent.Returned? && hasDispatcher && Initialize in failing ==> c.result == Err(ListenerRaised(Initialize))
  {
    match parent
    case Raised => Call([], true, Err(ParentRaised))
    case Returned(_) =>
      if !hasDispatcher then Call([], true, Err(NoDispatcher))
      else if Initialize in failing then Call([Initialize], true, Err(ListenerRaised(Initialize)))
      else Call([Initialize], true, Ok(Null))
  }

  /** `apply`: the pre-transition event, then the parent's transition, then
      the post-transition event; the parent's value is returned. */
  function ApplyCall(hasDispatcher: bool, failing: set<EventName>, parent: Outcome): (c: Call)
    ensures c.parentCalled <==> hasDispatcher && PreTransition !in failing
    ensures c.parentCalled || hasDispatcher ==> |c.dispatched| > 0 && c.dispatched[0] == PreTransition
    ensures PostTransition in c.dispatched <==> c.parentCalled && parent.Returned?
    ensures c.dispatched == [] || c.dispatched == [PreTransition] || c.dispatched == [PreTransition, PostTransition]
    ensures c.result.Ok? <==> hasDispatcher && parent.Returned? && PreTransition !in failing && PostTransition !in failing
    ensures c.result.Ok? ==> c.result.value == parent.value && c.dispatched == [PreTransition, PostTransition]
    ensures !hasDispatcher ==> c.result == Err(NoDispatcher)
    ensures hasDispatcher && PreTransition in failing ==> c.result == Err(ListenerRaised(PreTransition))
    ensures c.parentCalled && parent.Raised? ==> c.result == Err(ParentRaised)
    ensures c.parentCalled && parent.Returned? && PostTransition in failing ==> c.result == Err(ListenerRaised(PostTransition))
  {
    if !hasDispatcher then Call([], false, Err(NoDispatcher))
    else if PreTransition in failing then Call([PreTransition], false, Err(ListenerRaised(PreTransition)))
    else match parent
      case Raised => Call([PreTransition], true, Err(ParentRaised))
      case Returned(v) =>
        if PostTransition in failing then Call([PreTransition, PostTransition], true, Err(ListenerRaised(PostTransition)))
        else Call([PreTransition, PostTransition], true, Ok(v))
  }

  /** The dispatcher's records of events dispatched with `payload`. */
  function Records(names: seq<EventName>, payload: Payload): (r: seq<Dispatched>)
    ensures |r| == |names|
    ensures forall i :: 0 <= i < |names| ==> r[i] == Dispatched(names[i], payload)
  {
    if names == [] then [] else [Dispatched(names[0], payload)] + Records(names[1..], payload)
  }

  class ListenableStateMachine {
    var dispatcher: EventDispatcher?
    /** Every call the parent state machine received, oldest first. */
    var baseCalls: seq<BaseCall>

    constructor ()
      ensures dispatcher == null && baseCalls == []
    {
      dispatcher := null;
      baseCalls := [];
    }

    /** Replaces the dispatcher events go to. */
    method SetEventDispatcher(d: EventDispatcher)
      modifies this`dispatcher
      ensures dispatcher == d
    {
      dispatcher := d;
    }

    /** Initialises the parent machine, then dispatches the initialize event
        with an event that refers to this machine. */
    method Initialize(parent: Outcome) returns (result: Result<Value, Failure>)
      modifies this`baseCalls, dispatcher
      ensures var c := InitializeCall(dispatcher != null, if dispatcher != null then dispatcher.failing else {}, parent);
              && baseCalls == old(baseCalls) + [BaseInitialize]
              && (dispatcher != null ==> dispatcher.trace == old(dispatcher.trace) + Records(c.dispatched, StateMachineEvent(this)))
              && result == c.result
    {
      baseCalls := baseCalls + [BaseInitialize];
      if parent.Raised? {
        return Err(ParentRaised);
      }
      if dispatcher == null {
        return Err(NoDispatcher);
      }
      var delivered := dispatcher.Dispatch(EventName.Initialize, StateMachineEvent(this));
      if !delivered {
        return Err(ListenerRaised(EventName.Initialize));
      }
      return Ok(Null);
    }

    /** Dispatches the pre-transition event, applies `transition` in the
        parent machine, dispatches the post-transition event and returns
        what the parent returned. */
    method Apply(transition: string, parent: Outcome) returns (result: Result<Value, Failure>)
      modifies this`baseCalls, dispatcher
      ensures var c := ApplyCall(dispatcher != null, if dispatcher != null then dispatcher.failing else {}, parent);
              && baseCalls == old(baseCalls) + (if c.parentCalled then [BaseApply(transition)] else [])
              && (dispatcher != null ==> dispatcher.trace == old(dispatcher.trace) + Records(c.dispatched, BlankEvent))
              && result == c.result
    {
      if dispatcher == null {
        return Err(NoDispatcher);
      }
      var delivered := dispatcher.Dispatch(PreTransition, BlankEvent);
      if !delivered {
        return Err(ListenerRaised(PreTransition));
      }
      baseCalls := baseCalls + [BaseApply(transition)];
      if parent.Raised? {
        return Err(ParentRaised);
      }
      var value := parent.value;
      delivered := dispatcher.Dispatch(PostTransition, BlankEvent);
      if !delivered {
        return Err(ListenerRaised(PostTransition));
      }
      return Ok(value);
    }
  }
}
