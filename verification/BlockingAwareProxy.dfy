/** A partition-proxy decorator that moves every listener callback and every
    operation completion onto one sequential execution context. Each user
    listener is wrapped; the wrapper is what the delegate proxy knows about,
    and invoking it only queues a task on the context. */
module BlockingAwareProxy {
  import opened Async

  datatype EventType = EventType(id: string)
  datatype PrimitiveEvent = PrimitiveEvent(eventType: EventType, value: seq<bv8>)
  datatype PrimitiveOperation = PrimitiveOperation(id: string, value: seq<bv8>)

  /** Identity of a user state-change listener. */
  class StateListener {
    constructor ()
    {
    }
  }

  /** Identity of a user event listener. */
  class EventListener {
    constructor ()
    {
    }
  }

  /** The wrapper registered on the delegate for one state-change listener. */
  class StateWrapper {
    const listener: StateListener

    constructor (listener: StateListener)
      ensures this.listener == listener
    {
      this.listener := listener;
    }
  }

  /** The wrapper registered on the delegate for one event listener. */
  class EventWrapper {
    const listener: EventListener

    constructor (listener: EventListener)
      ensures this.listener == listener
    {
      this.listener := listener;
    }
  }

  /** A task on the context: a callback with its argument, or the completion
      of an operation's future with the delegate's result. */
  datatype Task =
    | DeliverState(stateListener: StateListener, state: PrimitiveState)
    | DeliverEvent(eventListener: EventListener, event: PrimitiveEvent)
    | Complete(operation: PrimitiveOperation, result: Result<seq<bv8>>)

  /** The wrapped proxy, as far as this decorator can observe it: who is
      registered on it and which operations it was asked to run. */
  class PartitionProxy {
    var stateListeners: set<StateWrapper>
    var eventListeners: set<(EventType, EventWrapper)>
    var executed: seq<PrimitiveOperation>

    constructor ()
      ensures stateListeners == {} && eventListeners == {} && executed == []
    {
      stateListeners, eventListeners, executed := {}, {}, [];
    }

    method AddStateChangeListener(w: StateWrapper)
      modifies this`stateListeners
      ensures stateListeners == old(stateListeners) + {w}
    {
      stateListeners := stateListeners + {w};
    }

    method RemoveStateChangeListener(w: StateWrapper)
      modifies this`stateListeners
      ensures stateListeners == old(stateListeners) - {w}
    {
      stateListeners := stateListeners - {w};
    }

    method AddEventListener(t: EventType, w: EventWrapper)
      modifies this`eventListeners
      ensures eventListeners == old(eventListeners) + {(t, w)}
    {
      eventListeners := eventListeners + {(t, w)};
    }

    method RemoveEventListener(t: EventType, w: EventWrapper)
      modifies this`eventListeners
      ensures eventListeners == old(eventListeners) - {(t, w)}
    {
      eventListeners := eventListeners - {(t, w)};
    }

    /** Runs an operation; `outcome` is what the replicas answered. */
    method Execute(op: PrimitiveOperation, outcome: Result<seq<bv8>>) returns (r: Result<seq<bv8>>)
      modifies this`executed
      ensures executed == old(executed) + [op] && r == outcome
    {
      executed := executed + [op];
      r := outcome;
    }
  }

  class BlockingAwarePartitionProxy {
    const delegate: PartitionProxy
    const context: ThreadContext<Task>
    var stateChangeListeners: map<StateListener, StateWrapper>
    var eventListeners: map<EventListener, EventWrapper>

    /** Each map entry sends a listener to a wrapper of that very listener. */
    ghost predicate Valid()
      reads this, context
    {
      && context.Valid()
      && (forall l :: l in stateChangeListeners ==> stateChangeListeners[l].listener == l)
      && (forall l :: l in eventListeners ==> eventListeners[l].listener == l)
    }

    constructor (delegate: PartitionProxy, context: ThreadContext<Task>)
      requires context.Valid()
      ensures Valid()
      ensures this.delegate == delegate && this.context == context
      ensures stateChangeListeners == map[] && eventListeners == map[]
    {
      this.delegate, this.context := delegate, context;
      stateChangeListeners, eventListeners := map[], map[];
    }

    /** Wraps `l` in a new wrapper, maps `l` to it (replacing any earlier
        entry) and registers the wrapper on the delegate. An earlier wrapper
        of `l` stays registered on the delegate. */
    method AddStateChangeListener(l: StateListener)
      requires Valid()
      modifies this`stateChangeListeners, delegate`stateListeners
      ensures Valid()
      ensures l in stateChangeListeners && fresh(stateChangeListeners[l])
      ensures stateChangeListeners == old(stateChangeListeners)[l := stateChangeListeners[l]]
      ensures delegate.stateListeners == old(delegate.stateListeners) + {stateChangeListeners[l]}
    {
      var wrapped := new StateWrapper(l);
      stateChangeListeners := stateChangeListeners[l := wrapped];
      delegate.AddStateChangeListener(wrapped);
    }

    /** Drops `l`'s entry and unregisters exactly the wrapper it mapped to;
        an unknown `l` leaves the delegate untouched. */
    method RemoveStateChangeListener(l: StateListener)
      requires Valid()
      modifies this`stateChangeListeners, delegate`stateListeners
      ensures Valid()
      ensures stateChangeListeners == old(stateChangeListeners) - {l}
      ensures delegate.stateListeners ==
        if l in old(stateChangeListeners) then old(delegate.stateListeners) - {old(stateChangeListeners)[l]}
        else old(delegate.stateListeners)
    {
      if l in stateChangeListeners {
        var wrapped := stateChangeListeners[l];
        stateChangeListeners := stateChangeListeners - {l};
        delegate.RemoveStateChangeListener(wrapped);
      }
    }

    /** As for state-change listeners; the map is keyed by the listener
        alone, so the event type is not part of the entry. */
    method AddEventListener(t: EventType, l: EventListener)
      requires Valid()
      modifies this`eventListeners, delegate`eventListeners
      ensures Valid()
      ensures l in eventListeners && fresh(eventListeners[l])
      ensures eventListeners == old(eventListeners)[l := eventListeners[l]]
      ensures delegate.eventListeners == old(delegate.eventListeners) + {(t, eventListeners[l])}
    {
      var wrapped := new EventWrapper(l);
      eventListeners := eventListeners[l := wrapped];
      delegate.AddEventListener(t, wrapped);
    }

    /** Drops `l`'s entry and asks the delegate to unregister its wrapper
        under the event type given HERE. */
    method RemoveEventListener(t: EventType, l: EventListener)
      requires Valid()
      modifies this`eventListeners, delegate`eventListeners
      ensures Valid()
      ensures eventListeners == old(eventListeners) - {l}
      ensures delegate.eventListeners ==
        if l in old(eventListeners) then old(delegate.eventListeners) - {(t, old(eventListeners)[l])}
        else old(delegate.eventListeners)
    {
      if l in eventListeners {
        var wrapped := eventListeners[l];
        eventListeners := eventListeners - {l};
        delegate.RemoveEventListener(t, wrapped);
      }
    }

    /** The delegate invokes a state wrapper: exactly one task, calling the
        wrapped listener with the same state, joins the back of the queue. */
    method InvokeStateWrapper(w: StateWrapper, state: PrimitiveState)
      requires Valid()
      modifies context
      ensures Valid()
      ensures context.queue == old(context.queue) + [DeliverState(w.listener, state)]
      ensures context.ran == old(context.ran) && context.open == old(context.open)
    {
      context.Execute(DeliverState(w.listener, state));
    }

    /** The delegate invokes an event wrapper. */
    method InvokeEventWrapper(w: EventWrapper, event: PrimitiveEvent)
      requires Valid()
      modifies context
      ensures Valid()
      ensures context.queue == old(context.queue) + [DeliverEvent(w.listener, event)]
      ensures context.ran == old(context.ran) && context.open == old(context.open)
    {
      context.Execute(DeliverEvent(w.listener, event));
    }

    /** Forwards the operation to the delegate once; its result completes the
        caller's future from a task on the context. */
    method Execute(op: PrimitiveOperation, outcome: Result<seq<bv8>>)
      requires Valid()
      modifies delegate`executed, context
      ensures Valid()
      ensures delegate.executed == old(delegate.executed) + [op]
      ensures context.queue == old(context.queue) + [Complete(op, outcome)]
      ensures context.ran == old(context.ran) && context.open == old(context.open)
    {
      var r := delegate.Execute(op, outcome);
      context.Execute(Complete(op, r));
    }
  }

  /** Two invocations in a row, whatever is already waiting, and then the
      context runs: the tasks already queued run first, then the first
      invocation's callback, then the second's. */
  method DeliveryFollowsInvocationOrder(p: BlockingAwarePartitionProxy, w1: StateWrapper, s1: PrimitiveState, w2: StateWrapper, s2: PrimitiveState)
    returns (delivered: seq<Task>)
    requires p.Valid()
    modifies p.context
    ensures p.Valid()
    ensures p.context.submitted == old(p.context.submitted) + [DeliverState(w1.listener, s1), DeliverState(w2.listener, s2)]
    ensures delivered == old(p.context.queue) + [DeliverState(w1.listener, s1), DeliverState(w2.listener, s2)]
    ensures p.context.ran == old(p.context.ran) + delivered && p.context.queue == []
  {
    p.InvokeStateWrapper(w1, s1);
    p.InvokeStateWrapper(w2, s2);
    delivered := p.context.RunAll();
  }

  /** Adding the same listener twice and then removing it once leaves the
      first wrapper registered on the delegate, still delivering to `l`,
      while the map no longer knows `l`. */
  method ReAddThenRemoveKeepsFirstWrapper(p: BlockingAwarePartitionProxy, l: StateListener)
    returns (first: StateWrapper)
    requires p.Valid()
    modifies p`stateChangeListeners, p.delegate`stateListeners
    ensures p.Valid()
    ensures first.listener == l && first in p.delegate.stateListeners
    ensures l !in p.stateChangeListeners
  {
    p.AddStateChangeListener(l);
    first := p.stateChangeListeners[l];
    p.AddStateChangeListener(l);
    p.RemoveStateChangeListener(l);
  }
}
