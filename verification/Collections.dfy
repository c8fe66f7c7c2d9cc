/** The distributed collection that the caching and transcoding decorators
    wrap. Its replicated implementation lives elsewhere; here it is an
    ordered sequence of distinct elements (its iteration order) with the
    set-like answers a distributed set gives, plus its listener registries.
    Every remote call takes the network's `Delivery`: when a call on the
    contents fails the contents are left as they were. */
module Collections {
  import opened Async

  /** The elements of a Java collection argument, as a set. */
  function Elements<E>(c: seq<E>): set<E>
  {
    set x | x in c
  }

  /** `s` without the elements of `xs`, order kept. */
  function Excluding<E(==,!new)>(s: seq<E>, xs: set<E>): (r: seq<E>)
    ensures forall y :: y in r <==> y in s && y !in xs
    ensures |r| <= |s|
  {
    if s == [] then []
    else (if s[0] in xs then [] else [s[0]]) + Excluding(s[1..], xs)
  }

  /** `s` restricted to the elements of `xs`, order kept. */
  function Retaining<E(==,!new)>(s: seq<E>, xs: set<E>): (r: seq<E>)
    ensures forall y :: y in r <==> y in s && y in xs
    ensures |r| <= |s|
  {
    if s == [] then []
    else (if s[0] in xs then [s[0]] else []) + Retaining(s[1..], xs)
  }

  /** `s` followed by those elements of `c` not already present, in the order of `c`. */
  function Appending<E(==,!new)>(s: seq<E>, c: seq<E>): (r: seq<E>)
    ensures forall y :: y in r <==> y in s || y in c
    ensures |s| <= |r| && r[..|s|] == s
    decreases |c|
  {
    if c == [] then s
    else Appending(if c[0] in s then s else s + [c[0]], c[1..])
  }

  /** Events a collection publishes for every mutation, local or remote. */
  datatype EventKind = Added | Removed
  datatype CollectionEvent<E> = CollectionEvent(kind: EventKind, element: E)

  class AsyncCollection<E(==,!new)> {
    const name: string
    const primitiveType: string
    const protocol: string
    var elems: seq<E>
    var eventListeners: set<object>
    var stateListeners: set<object>
    var closed: bool

    constructor (name: string, primitiveType: string, protocol: string)
      ensures this.name == name && this.primitiveType == primitiveType && this.protocol == protocol
      ensures elems == [] && eventListeners == {} && stateListeners == {} && !closed
    {
      this.name, this.primitiveType, this.protocol := name, primitiveType, protocol;
      elems, eventListeners, stateListeners, closed := [], {}, {}, false;
    }

    method Size(d: Delivery) returns (r: Result<nat>)
      ensures r == Reply(d, |elems|)
    {
      r := Reply(d, |elems|);
    }

    method IsEmpty(d: Delivery) returns (r: Result<bool>)
      ensures r == Reply(d, elems == [])
    {
      r := Reply(d, elems == []);
    }

    method Contains(x: E, d: Delivery) returns (r: Result<bool>)
      ensures r == Reply(d, x in elems)
    {
      r := Reply(d, x in elems);
    }

    method ContainsAll(c: seq<E>, d: Delivery) returns (r: Result<bool>)
      ensures r == Reply(d, forall y :: y in c ==> y in elems)
    {
      r := Reply(d, forall y :: y in c ==> y in elems);
    }

    method Iterator(d: Delivery) returns (r: Result<seq<E>>)
      ensures r == Reply(d, elems)
    {
      r := Reply(d, elems);
    }

    method Add(x: E, d: Delivery) returns (r: Result<bool>)
      modifies this`elems
      ensures r == Reply(d, x !in old(elems))
      ensures elems == if d.Delivered? then Appending(old(elems), [x]) else old(elems)
    {
      r := Reply(d, x !in elems);
      if d.Delivered? {
        elems := Appending(elems, [x]);
      }
    }

    method Remove(x: E, d: Delivery) returns (r: Result<bool>)
      modifies this`elems
      ensures r == Reply(d, x in old(elems))
      ensures elems == if d.Delivered? then Excluding(old(elems), {x}) else old(elems)
    {
      r := Reply(d, x in elems);
      if d.Delivered? {
        elems := Excluding(elems, {x});
      }
    }

    method AddAll(c: seq<E>, d: Delivery) returns (r: Result<bool>)
      modifies this`elems
      ensures r == Reply(d, exists y :: y in c && y !in old(elems))
      ensures elems == if d.Delivered? then Appending(old(elems), c) else old(elems)
    {
      r := Reply(d, exists y :: y in c && y !in elems);
      if d.Delivered? {
        elems := Appending(elems, c);
      }
    }

    method RetainAll(c: seq<E>, d: Delivery) returns (r: Result<bool>)
      modifies this`elems
      ensures r == Reply(d, exists y :: y in old(elems) && y !in c)
      ensures elems == if d.Delivered? then Retaining(old(elems), Elements(c)) else old(elems)
    {
      r := Reply(d, exists y :: y in elems && y !in c);
      if d.Delivered? {
        elems := Retaining(elems, Elements(c));
      }
    }

    method RemoveAll(c: seq<E>, d: Delivery) returns (r: Result<bool>)
      modifies this`elems
      ensures r == Reply(d, exists y :: y in old(elems) && y in c)
      ensures elems == if d.Delivered? then Excluding(old(elems), Elements(c)) else old(elems)
    {
      r := Reply(d, exists y :: y in elems && y in c);
      if d.Delivered? {
        elems := Excluding(elems, Elements(c));
      }
    }

    method Clear(d: Delivery) returns (r: Result<()>)
      modifies this`elems
      ensures r == Reply(d, ())
      ensures elems == if d.Delivered? then [] else old(elems)
    {
      r := Reply(d, ());
      if d.Delivered? {
        elems := [];
      }
    }

    method Close(d: Delivery) returns (r: Result<()>)
      modifies this`closed
      ensures r == Reply(d, ())
      ensures closed == (old(closed) || d.Delivered?)
    {
      r := Reply(d, ());
      if d.Delivered? {
        closed := true;
      }
    }

    /** Records the listener locally at once; the returned future reports
        whether the subscription with the replicas succeeded. */
    method AddListener(l: object, d: Delivery) returns (r: Result<()>)
      modifies this`eventListeners
      ensures r == Reply(d, ())
      ensures eventListeners == old(eventListeners) + {l}
    {
      eventListeners := eventListeners + {l};
      r := Reply(d, ());
    }

    /** Forgets the listener locally at once; the future reports the
        outcome of the unsubscription. */
    method RemoveListener(l: object, d: Delivery) returns (r: Result<()>)
      modifies this`eventListeners
      ensures r == Reply(d, ())
      ensures eventListeners == old(eventListeners) - {l}
    {
      eventListeners := eventListeners - {l};
      r := Reply(d, ());
    }

    method AddStateChangeListener(l: object)
      modifies this`stateListeners
      ensures stateListeners == old(stateListeners) + {l}
    {
      stateListeners := stateListeners + {l};
    }

    method RemoveStateChangeListener(l: object)
      modifies this`stateListeners
      ensures stateListeners == old(stateListeners) - {l}
    {
      stateListeners := stateListeners - {l};
    }
  }
}
