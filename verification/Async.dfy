/** Shared vocabulary of the client stack: already-resolved futures, the
    outcome of a remote call, primitive states, and a sequential execution
    context modelled as a FIFO task queue. */
module Async {

  /** Why an asynchronous call failed. */
  datatype Failure =
    | Unavailable            // no primary known, or the primary did not answer usefully
    | Transport              // connection-level or serialization fault
    | Rejected               // the backing primitive refused the operation
    | NullArgument(name: string)

  /** A future that has already completed, normally or exceptionally. */
  datatype Result<T> = Ok(value: T) | Err(failure: Failure)

  /** A Java reference that may be null. */
  datatype Option<T> = None | Some(value: T)

  /** What the remote side did with a request: it was applied and answered,
      or the call failed with the given fault. */
  datatype Delivery = Delivered | Failed(failure: Failure)

  /** The future a remote call completes: `v` when delivered, the fault otherwise. */
  function Reply<T>(d: Delivery, v: T): (r: Result<T>)
    ensures r.Ok? <==> d.Delivered?
    ensures r.Ok? ==> r.value == v
    ensures r.Err? ==> r.failure == d.failure
  {
    if d.Delivered? then Ok(v) else Err(d.failure)
  }

  /** The state a primitive or proxy reports to its state-change listeners. */
  datatype PrimitiveState = Connected | Suspended | Closed

  /** A sequential execution context: tasks run one at a time, in the order
      they were submitted. `submitted` is every task ever handed to the
      context; `ran` is the ones already run; `queue` the ones waiting. */
  class ThreadContext<T> {
    var queue: seq<T>
    ghost var ran: seq<T>
    ghost var submitted: seq<T>
    var open: bool

    ghost predicate Valid()
      reads this
    {
      submitted == ran + queue
    }

    constructor ()
      ensures Valid() && open
      ensures queue == [] && ran == [] && submitted == []
    {
      queue, ran, submitted, open := [], [], [], true;
    }

    /** Submits a task; it runs after every task submitted before it. */
    method Execute(task: T)
      requires Valid()
      modifies this
      ensures Valid() && open == old(open)
      ensures queue == old(queue) + [task]
      ensures submitted == old(submitted) + [task] && ran == old(ran)
    {
      queue := queue + [task];
      submitted := submitted + [task];
    }

    /** Runs the oldest waiting task, if any, and returns it. */
    method RunNext() returns (t: Option<T>)
      requires Valid()
      modifies this
      ensures Valid() && open == old(open)
      ensures submitted == old(submitted)
      ensures old(queue) == [] ==> t == None && queue == [] && ran == old(ran)
      ensures old(queue) != [] ==>
        t == Some(old(queue)[0]) && queue == old(queue)[1..] && ran == old(ran) + [old(queue)[0]]
      ensures ran <= submitted
    {
      if queue == [] {
        t := None;
      } else {
        t := Some(queue[0]);
        ran := ran + [queue[0]];
        queue := queue[1..];
      }
    }

    /** Runs every waiting task, oldest first, and returns them in the
        order they ran. */
    method RunAll() returns (done: seq<T>)
      requires Valid()
      modifies this
      ensures Valid() && open == old(open)
      ensures submitted == old(submitted) && queue == []
      ensures done == old(queue) && ran == old(ran) + done
    {
      done := [];
      while queue != []
        invariant Valid() && open == old(open) && submitted == old(submitted)
        invariant old(queue) == done + queue
        invariant ran == old(ran) + done
        decreases |queue|
      {
        var t := RunNext();
        done := done + [t.value];
      }
    }

    method Close()
      requires Valid()
      modifies this`open
      ensures Valid() && !open
    {
      open := false;
    }
  }

  /** Hands out execution contexts, identified by the order of creation. */
  class ContextFactory {
    var created: nat
    var open: bool

    constructor ()
      ensures created == 0 && open
    {
      created, open := 0, true;
    }

    method CreateContext() returns (id: nat)
      modifies this`created
      ensures id == old(created) && created == old(created) + 1
    {
      id := created;
      created := created + 1;
    }

    method Close()
      modifies this`open
      ensures !open
    {
      open := false;
    }
  }
}
