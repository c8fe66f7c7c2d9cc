/** Presents a distributed collection of `E2` as a collection of `E1`.
    Arguments are encoded before they reach the backing collection, elements
    coming back are decoded, and user listeners are wrapped in internal
    listeners kept in an identity-keyed registry. */
module TranscodingCollection {
  import opened Async
  import opened Collections

  /** A Java reference that may be null, as an element of either collection. */
  datatype Nullable<T> = Null | Value(value: T)

  /** Wraps a user function so that null maps to null and every other
      reference is handed to the user function. */
  function NullSafe<A, B>(f: A -> B, x: Nullable<A>): (r: Nullable<B>)
    ensures r.Null? <==> x.Null?
    ensures x.Value? ==> r.value == f(x.value)
  {
    match x
    case Null => Null
    case Value(v) => Value(f(v))
  }

  /** The wrapped encoder and decoder keep null as null and undo each other
      whenever the user functions do. */
  lemma NullSafeRoundTrip<A, B>(encode: A -> B, decode: B -> A, x: Nullable<A>)
    requires forall v :: decode(encode(v)) == v
    ensures x.Null? <==> NullSafe(encode, x).Null?
    ensures NullSafe(decode, NullSafe(encode, x)) == x
  {
  }

  /** A bulk argument mapped element by element, order kept. */
  function MapAll<A, B>(f: A -> B, c: seq<Nullable<A>>): (r: seq<Nullable<B>>)
    ensures |r| == |c|
    ensures forall i :: 0 <= i < |c| ==> r[i] == NullSafe(f, c[i])
  {
    if c == [] then [] else [NullSafe(f, c[0])] + MapAll(f, c[1..])
  }

  /** Encoding a bulk argument and decoding it again gives the argument back. */
  lemma MapAllRoundTrip<A, B>(encode: A -> B, decode: B -> A, c: seq<Nullable<A>>)
    requires forall v :: decode(encode(v)) == v
    ensures MapAll(decode, MapAll(encode, c)) == c
  {
  }

  /** Identity of a listener the application registers. */
  class UserListener {
    constructor ()
    {
    }
  }

  /** The internal listener registered on the backing collection on behalf
      of one user listener. */
  class InternalListener {
    const listener: UserListener

    constructor (listener: UserListener)
      ensures this.listener == listener
    {
      this.listener := listener;
    }
  }

  class TranscodingAsyncCollection<E1, E2(==,!new)> {
    const backing: AsyncCollection<Nullable<E2>>
    const encoder: E1 -> E2
    const decoder: E2 -> E1
    var listeners: map<UserListener, InternalListener>

    /** Every registry entry maps a user listener to a wrapper of that very
        listener, so no two listeners share a wrapper. */
    ghost predicate Valid()
      reads this
    {
      forall l :: l in listeners ==> listeners[l].listener == l
    }

    constructor (backing: AsyncCollection<Nullable<E2>>, encoder: E1 -> E2, decoder: E2 -> E1)
      ensures Valid() && listeners == map[]
      ensures this.backing == backing && this.encoder == encoder && this.decoder == decoder
    {
      this.backing, this.encoder, this.decoder := backing, encoder, decoder;
      listeners := map[];
    }

    /** The encoder the collection applies to every argument. */
    function Encode(x: Nullable<E1>): (y: Nullable<E2>)
      ensures y.Null? <==> x.Null?
      ensures x.Value? ==> y.value == encoder(x.value)
    {
      NullSafe(encoder, x)
    }

    /** The decoder the collection applies to every element it hands out. */
    function Decode(y: Nullable<E2>): (x: Nullable<E1>)
      ensures x.Null? <==> y.Null?
      ensures y.Value? ==> x.value == decoder(y.value)
    {
      NullSafe(decoder, y)
    }

    function Name(): string
    {
      backing.name
    }

    function PrimitiveType(): string
    {
      backing.primitiveType
    }

    function Protocol(): string
    {
      backing.protocol
    }

    method Size(d: Delivery) returns (r: Result<nat>)
      ensures r == Reply(d, |backing.elems|)
    {
      r := backing.Size(d);
    }

    method IsEmpty(d: Delivery) returns (r: Result<bool>)
      ensures r == Reply(d, backing.elems == [])
    {
      r := backing.IsEmpty(d);
    }

    method Contains(x: Nullable<E1>, d: Delivery) returns (r: Result<bool>)
      ensures r == Reply(d, Encode(x) in backing.elems)
    {
      r := backing.Contains(Encode(x), d);
    }

    method ContainsAll(c: seq<Nullable<E1>>, d: Delivery) returns (r: Result<bool>)
      ensures r == Reply(d, forall i :: 0 <= i < |c| ==> Encode(c[i]) in backing.elems)
    {
      var encoded := MapAll(encoder, c);
      r := backing.ContainsAll(encoded, d);
      assert (forall y :: y in encoded ==> y in backing.elems)
         <==> (forall i :: 0 <= i < |c| ==> Encode(c[i]) in backing.elems) by {
        if forall i :: 0 <= i < |c| ==> Encode(c[i]) in backing.elems {
          forall y | y in encoded ensures y in backing.elems {
            var i :| 0 <= i < |encoded| && encoded[i] == y;
          }
        }
      }
    }

    /** The iterator's elements: the backing elements decoded, in backing order. */
    method Iterator(d: Delivery) returns (r: Result<seq<Nullable<E1>>>)
      ensures r.Ok? <==> d.Delivered?
      ensures r.Err? ==> r.failure == d.failure
      ensures r.Ok? ==> |r.value| == |backing.elems|
      ensures r.Ok? ==> forall i :: 0 <= i < |backing.elems| ==> r.value[i] == Decode(backing.elems[i])
    {
      var it := backing.Iterator(d);
      if it.Ok? {
        r := Ok(MapAll(decoder, it.value));
      } else {
        r := Err(it.failure);
      }
    }

    method Add(x: Nullable<E1>, d: Delivery) returns (r: Result<bool>)
      modifies backing`elems
      ensures r == Reply(d, Encode(x) !in old(backing.elems))
      ensures backing.elems == if d.Delivered? then Appending(old(backing.elems), [Encode(x)]) else old(backing.elems)
    {
      r := backing.Add(Encode(x), d);
    }

    method Remove(x: Nullable<E1>, d: Delivery) returns (r: Result<bool>)
      modifies backing`elems
      ensures r == Reply(d, Encode(x) in old(backing.elems))
      ensures backing.elems == if d.Delivered? then Excluding(old(backing.elems), {Encode(x)}) else old(backing.elems)
    {
      r := backing.Remove(Encode(x), d);
    }

    method AddAll(c: seq<Nullable<E1>>, d: Delivery) returns (r: Result<bool>)
      modifies backing`elems
      ensures r == Reply(d, exists y :: y in MapAll(encoder, c) && y !in old(backing.elems))
      ensures backing.elems == if d.Delivered? then Appending(old(backing.elems), MapAll(encoder, c)) else old(backing.elems)
    {
      r := backing.AddAll(MapAll(encoder, c), d);
    }

    method RetainAll(c: seq<Nullable<E1>>, d: Delivery) returns (r: Result<bool>)
      modifies backing`elems
      ensures r == Reply(d, exists y :: y in old(backing.elems) && y !in MapAll(encoder, c))
      ensures backing.elems == if d.Delivered? then Retaining(old(backing.elems), Elements(MapAll(encoder, c))) else old(backing.elems)
    {
      r := backing.RetainAll(MapAll(encoder, c), d);
    }

    method RemoveAll(c: seq<Nullable<E1>>, d: Delivery) returns (r: Result<bool>)
      modifies backing`elems
      ensures r == Reply(d, exists y :: y in old(backing.elems) && y in MapAll(encoder, c))
      ensures backing.elems == if d.Delivered? then Excluding(old(backing.elems), Elements(MapAll(encoder, c))) else old(backing.elems)
    {
      r := backing.RemoveAll(MapAll(encoder, c), d);
    }

    method Clear(d: Delivery) returns (r: Result<()>)
      modifies backing`elems
      ensures r == Reply(d, ())
      ensures backing.elems == if d.Delivered? then [] else old(backing.elems)
    {
      r := backing.Clear(d);
    }

    method Close(d: Delivery) returns (r: Result<()>)
      modifies backing`closed
      ensures r == Reply(d, ())
      ensures backing.closed == (old(backing.closed) || d.Delivered?)
    {
      r := backing.Close(d);
    }

    /** Registers `l`, reusing its internal listener if it already has one,
        (re)registers that internal listener on the backing collection and
        returns the backing registration future. The registry keeps the
        entry even when that future fails. */
    method AddListener(l: UserListener, d: Delivery) returns (r: Result<()>)
      requires Valid()
      modifies this`listeners, backing`eventListeners
      ensures Valid()
      ensures r == Reply(d, ())
      ensures l in listeners
      ensures l in old(listeners) ==> listeners == old(listeners)
      ensures l !in old(listeners) ==> fresh(listeners[l]) && listeners == old(listeners)[l := listeners[l]]
      ensures backing.eventListeners == old(backing.eventListeners) + {listeners[l]}
    {
      var internal: InternalListener;
      if l in listeners {
        internal := listeners[l];
      } else {
        internal := new InternalListener(l);
        listeners := listeners[l := internal];
      }
      r := backing.AddListener(internal, d);
    }

    /** Unregisters `l`: drops its entry and unregisters exactly its internal
        listener, returning the backing future; an unknown `l` leaves both
        registries alone and gets an already-completed future. */
    method RemoveListener(l: UserListener, d: Delivery) returns (r: Result<()>)
      requires Valid()
      modifies this`listeners, backing`eventListeners
      ensures Valid()
      ensures r == if l in old(listeners) then Reply(d, ()) else Ok(())
      ensures listeners == old(listeners) - {l}
      ensures backing.eventListeners ==
        if l in old(listeners) then old(backing.eventListeners) - {old(listeners)[l]}
        else old(backing.eventListeners)
    {
      if l in listeners {
        var internal := listeners[l];
        listeners := listeners - {l};
        r := backing.RemoveListener(internal, d);
      } else {
        r := Ok(());
      }
    }

    method AddStateChangeListener(l: object)
      modifies backing`stateListeners
      ensures backing.stateListeners == old(backing.stateListeners) + {l}
    {
      backing.AddStateChangeListener(l);
    }

    method RemoveStateChangeListener(l: object)
      modifies backing`stateListeners
      ensures backing.stateListeners == old(backing.stateListeners) - {l}
    {
      backing.RemoveStateChangeListener(l);
    }

    /** What an internal listener does with a backing event: it hands the
        user listener it wraps an event of the same kind about the decoded
        element. */
    function Relay(internal: InternalListener, event: CollectionEvent<Nullable<E2>>): (delivery: (UserListener, CollectionEvent<Nullable<E1>>))
      ensures delivery.0 == internal.listener
      ensures delivery.1.kind == event.kind
      ensures delivery.1.element == Decode(event.element)
    {
      (internal.listener, CollectionEvent(event.kind, Decode(event.element)))
    }
  }

  /** Whatever was added through the transcoding layer shows up, decoded,
      among the iterator's elements. */
  lemma AddedElementIsIterated<E1, E2(!new)>(t: TranscodingAsyncCollection<E1, E2>, elems: seq<Nullable<E2>>, x: Nullable<E1>)
    requires forall v :: t.decoder(t.encoder(v)) == v
    requires t.Encode(x) in elems
    ensures x in MapAll(t.decoder, elems)
  {
  }

  /** An event about the encoded form of `x` reaches the user listener as an
      event of the same kind about `x` itself. */
  lemma RelayRoundTrip<E1, E2(!new)>(t: TranscodingAsyncCollection<E1, E2>, internal: InternalListener, kind: EventKind, x: Nullable<E1>)
    requires forall v :: t.decoder(t.encoder(v)) == v
    ensures t.Relay(internal, CollectionEvent(kind, t.Encode(x))) == (internal.listener, CollectionEvent(kind, x))
  {
  }
}
