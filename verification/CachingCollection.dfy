/** A read-through cache of membership answers in front of a distributed
    collection. Entries are loaded from the backing collection's `contains`
    and dropped when a local mutation succeeds, when the backing collection
    publishes a mutation event, or when it reports SUSPENDED or CLOSED. */
module CachingCollection {
  import opened Async
  import opened Collections

  /** The cache size used when the caller does not give one. */
  const DEFAULT_CACHE_SIZE: nat := 10000

  /** A cached membership check: the already-resolved `contains` future. */
  type Answer = Result<bool>

  /** Every cached answer that succeeded agrees with the backing contents.
      Failed answers carry no claim about membership. */
  ghost predicate Coherent<E>(cache: map<E, Answer>, elems: seq<E>)
  {
    forall x :: x in cache && cache[x].Ok? ==> cache[x].value == (x in elems)
  }

  /** The cache after a bulk mutation (`addAll`, `retainAll`, `removeAll`)
      answered `r`: only a `true` answer drops the entries of the argument. */
  function AfterBulk<E>(cache: map<E, Answer>, r: Result<bool>, c: seq<E>): map<E, Answer>
  {
    if r == Ok(true) then cache - Elements(c) else cache
  }

  /** Drops the entry of each element of `c`, one element at a time. */
  method InvalidateEach<E>(cache: map<E, Answer>, c: seq<E>) returns (r: map<E, Answer>)
    ensures r.Keys == cache.Keys - Elements(c)
    ensures forall x :: x in r ==> r[x] == cache[x]
  {
    r := cache;
    for i := 0 to |c|
      invariant r.Keys == cache.Keys - Elements(c[..i])
      invariant forall x :: x in r ==> r[x] == cache[x]
    {
      assert Elements(c[..i + 1]) == Elements(c[..i]) + {c[i]} by {
        assert c[..i + 1] == c[..i] + [c[i]];
      }
      r := r - {c[i]};
    }
    assert c[..|c|] == c;
  }

  /** Identity of the mutation-event listener the cache registers. */
  class CacheUpdater {
    constructor ()
    {
    }
  }

  /** Identity of the state-change listener the cache registers. */
  class StatusListener {
    constructor ()
    {
    }
  }

  class CachingAsyncCollection<E(==,!new)> {
    const backing: AsyncCollection<E>
    const cacheSize: nat
    const cacheUpdater: CacheUpdater
    const statusListener: StatusListener
    var cache: map<E, Answer>

    ghost predicate Valid()
      reads this, backing
    {
      && |cache.Keys| <= cacheSize
      && cacheUpdater in backing.eventListeners
      && statusListener in backing.stateListeners
    }

    /** Whether the cache agrees with the backing collection. */
    ghost predicate InSync()
      reads this, backing
    {
      Coherent(cache, backing.elems)
    }

    constructor (backing: AsyncCollection<E>, cacheSize: nat)
      modifies backing`eventListeners, backing`stateListeners
      ensures Valid() && InSync()
      ensures this.backing == backing && this.cacheSize == cacheSize && cache == map[]
      ensures fresh(cacheUpdater) && fresh(statusListener)
      ensures backing.eventListeners == old(backing.eventListeners) + {cacheUpdater}
      ensures backing.stateListeners == old(backing.stateListeners) + {statusListener}
    {
      this.backing := backing;
      this.cacheSize := cacheSize;
      cache := map[];
      cacheUpdater := new CacheUpdater();
      statusListener := new StatusListener();
      new;
      // The registration future is dropped; the registration itself is local.
      var _ := backing.AddListener(cacheUpdater, Delivered);
      backing.AddStateChangeListener(statusListener);
    }

    constructor WithDefaultSize(backing: AsyncCollection<E>)
      modifies backing`eventListeners, backing`stateListeners
      ensures Valid() && InSync()
      ensures this.backing == backing && cacheSize == DEFAULT_CACHE_SIZE && cache == map[]
      ensures fresh(cacheUpdater) && fresh(statusListener)
      ensures backing.eventListeners == old(backing.eventListeners) + {cacheUpdater}
      ensures backing.stateListeners == old(backing.stateListeners) + {statusListener}
    {
      this.backing := backing;
      cacheSize := DEFAULT_CACHE_SIZE;
      cache := map[];
      cacheUpdater := new CacheUpdater();
      statusListener := new StatusListener();
      new;
      // The registration future is dropped; the registration itself is local.
      var _ := backing.AddListener(cacheUpdater, Delivered);
      backing.AddStateChangeListener(statusListener);
    }

    /** Makes room for one more entry: when the cache is full, some entry
        is evicted; the surviving entries keep their answers. */
    method MakeRoom()
      requires Valid() && cacheSize > 0
      modifies this`cache
      ensures Valid() && |cache.Keys| < cacheSize
      ensures cache.Keys <= old(cache).Keys
      ensures forall x :: x in cache ==> cache[x] == old(cache)[x]
      ensures |old(cache).Keys| < cacheSize ==> cache == old(cache)
      ensures |old(cache).Keys - cache.Keys| <= 1
    {
      if |cache.Keys| == cacheSize {
        var victim :| victim in cache.Keys;
        assert (cache - {victim}).Keys == cache.Keys - {victim};
        cache := cache - {victim};
      }
    }

    /** A cache read: a hit returns the stored answer untouched; a miss asks
        the backing collection's `contains` and stores that answer, evicting
        some other entry when the cache is full. */
    method Get(e: E, d: Delivery) returns (r: Answer)
      requires Valid()
      modifies this`cache
      ensures Valid()
      ensures e in old(cache) ==> r == old(cache)[e] && cache == old(cache)
      ensures e !in old(cache) ==> r == Reply(d, e in backing.elems)
      ensures e !in old(cache) && cacheSize > 0 ==> e in cache && cache[e] == r
      ensures forall x :: x in cache && x != e ==> x in old(cache) && cache[x] == old(cache)[x]
      ensures old(InSync()) ==> InSync()
    {
      if e in cache {
        r := cache[e];
        return;
      }
      r := backing.Contains(e, d);
      if cacheSize == 0 {
        return;
      }
      MakeRoom();
      assert cache[e := r].Keys == cache.Keys + {e};
      cache := cache[e := r];
    }

    method Add(e: E, d: Delivery) returns (r: Result<bool>)
      requires Valid()
      modifies this`cache, backing`elems
      ensures Valid()
      ensures r == Reply(d, e !in old(backing.elems))
      ensures backing.elems == if d.Delivered? then Appending(old(backing.elems), [e]) else old(backing.elems)
      ensures cache == if r == Ok(true) then old(cache) - {e} else old(cache)
      ensures old(InSync()) ==> InSync()
    {
      r := backing.Add(e, d);
      if r == Ok(true) {
        assert (cache - {e}).Keys <= cache.Keys;
        cache := cache - {e};
      }
    }

    /** The completion callback of a bulk mutation: on `true`, invalidate
        each element of `c`. */
    method InvalidateOnSuccess(r: Result<bool>, c: seq<E>)
      requires Valid()
      modifies this`cache
      ensures Valid()
      ensures cache == AfterBulk(old(cache), r, c)
    {
      if r == Ok(true) {
        cache := InvalidateEach(cache, c);
        assert cache.Keys <= old(cache).Keys;
      }
    }

    /** `remove` is not overridden: it goes straight to the backing
        collection and leaves the cache as it was. The entry of a removed
        element goes only when the backing collection's REMOVED event
        arrives (`OnEvent`). */
    method Remove(e: E, d: Delivery) returns (r: Result<bool>)
      requires Valid()
      modifies backing`elems
      ensures Valid()
      ensures r == Reply(d, e in old(backing.elems))
      ensures backing.elems == if d.Delivered? then Excluding(old(backing.elems), {e}) else old(backing.elems)
      ensures cache == old(cache)
    {
      r := backing.Remove(e, d);
    }

    method AddAll(c: seq<E>, d: Delivery) returns (r: Result<bool>)
      requires Valid()
      modifies this`cache, backing`elems
      ensures Valid()
      ensures r == Reply(d, exists y :: y in c && y !in old(backing.elems))
      ensures backing.elems == if d.Delivered? then Appending(old(backing.elems), c) else old(backing.elems)
      ensures cache == AfterBulk(old(cache), r, c)
      ensures old(InSync()) ==> InSync()
    {
      r := backing.AddAll(c, d);
      InvalidateOnSuccess(r, c);
      if old(InSync()) {
        AddAllKeepsCoherence(old(cache), old(backing.elems), c, d);
      }
    }

    /** `retainAll` with the invalidation it evidently intends: a `true`
        answer drops the entries of the elements outside `c`, the only ones
        that can have left the collection. (The source drops those of `c`;
        see `RetainAllLeavesStaleEntry`.) */
    method RetainAll(c: seq<E>, d: Delivery) returns (r: Result<bool>)
      requires Valid()
      modifies this`cache, backing`elems
      ensures Valid()
      ensures r == Reply(d, exists y :: y in old(backing.elems) && y !in c)
      ensures backing.elems == if d.Delivered? then Retaining(old(backing.elems), Elements(c)) else old(backing.elems)
      ensures cache == AfterRetainAll(old(cache), r, c)
      ensures old(InSync()) ==> InSync()
    {
      r := backing.RetainAll(c, d);
      if r == Ok(true) {
        cache := map x | x in cache && x in Elements(c) :: cache[x];
        assert cache.Keys == old(cache).Keys - (old(cache).Keys - Elements(c));
      }
      if old(InSync()) {
        RetainAllCorrectedKeepsCoherence(old(cache), old(backing.elems), c, d);
      }
    }

    method RemoveAll(c: seq<E>, d: Delivery) returns (r: Result<bool>)
      requires Valid()
      modifies this`cache, backing`elems
      ensures Valid()
      ensures r == Reply(d, exists y :: y in old(backing.elems) && y in c)
      ensures backing.elems == if d.Delivered? then Excluding(old(backing.elems), Elements(c)) else old(backing.elems)
      ensures cache == AfterBulk(old(cache), r, c)
      ensures old(InSync()) ==> InSync()
    {
      r := backing.RemoveAll(c, d);
      InvalidateOnSuccess(r, c);
      if old(InSync()) {
        RemoveAllKeepsCoherence(old(cache), old(backing.elems), c, d);
      }
    }

    /** The cache is emptied whether the backing `clear` succeeded or failed. */
    method Clear(d: Delivery) returns (r: Result<()>)
      requires Valid()
      modifies this`cache, backing`elems
      ensures Valid() && InSync()
      ensures r == Reply(d, ())
      ensures backing.elems == if d.Delivered? then [] else old(backing.elems)
      ensures cache == map[]
    {
      r := backing.Clear(d);
      cache := map[];
    }

    /** The registered mutation-event listener: drops the named element. */
    method OnEvent(event: CollectionEvent<E>)
      requires Valid()
      modifies this`cache
      ensures Valid()
      ensures cache == old(cache) - {event.element}
    {
      assert (cache - {event.element}).Keys <= cache.Keys;
      cache := cache - {event.element};
    }

    /** The registered state-change listener. */
    method OnStateChange(state: PrimitiveState)
      requires Valid()
      modifies this`cache
      ensures Valid()
      ensures state == Suspended || state == Closed ==> cache == map[] && InSync()
      ensures state == Connected ==> cache == old(cache)
    {
      if state == Suspended || state == Closed {
        cache := map[];
      }
    }
  }

  /** A successful `addAll` changes membership only for elements of its
      argument, and an unchanged answer means nothing changed. */
  lemma AddAllKeepsCoherence<E(!new)>(cache: map<E, Answer>, elems: seq<E>, c: seq<E>, d: Delivery)
    requires Coherent(cache, elems)
    ensures Coherent(
      AfterBulk(cache, Reply(d, exists y :: y in c && y !in elems), c),
      if d.Delivered? then Appending(elems, c) else elems)
  {
  }

  /** The same for `removeAll`. */
  lemma RemoveAllKeepsCoherence<E(!new)>(cache: map<E, Answer>, elems: seq<E>, c: seq<E>, d: Delivery)
    requires Coherent(cache, elems)
    ensures Coherent(
      AfterBulk(cache, Reply(d, exists y :: y in elems && y in c), c),
      if d.Delivered? then Excluding(elems, Elements(c)) else elems)
  {
  }

  /** A mutation made by another client changes the membership of one
      element; the event it publishes drops that element's entry, which
      brings the cache back in line with the new contents. */
  lemma RemoteMutationThenEvent<E>(cache: map<E, Answer>, elems: seq<E>, elems': seq<E>, x: E)
    requires Coherent(cache, elems)
    requires forall y :: y != x ==> (y in elems' <==> y in elems)
    ensures Coherent(cache - {x}, elems')
  {
  }

  /** Between a successful local `remove(1)` and the REMOVED event it
      publishes, a cache that held "1 is present" is stale; the event
      (`OnEvent`) makes it coherent again. */
  lemma RemoveWaitsForEvent()
    ensures Coherent(map[1 := Ok(true)], [1])
    ensures Reply(Delivered, 1 in [1]) == Ok(true)
    ensures Excluding([1], {1}) == []
    ensures !Coherent(map[1 := Ok(true)], Excluding([1], {1}))
    ensures Coherent(map[1 := Ok(true)] - {1}, Excluding([1], {1}))
  {
  }

  /** `retainAll` as written: from a cache in step with {1, 2} that holds the
      answer "2 is present", `retainAll([1])` succeeds with `true`, removes 2,
      and leaves the stale answer for 2 in place. */
  lemma RetainAllLeavesStaleEntry()
    ensures Coherent(map[2 := Ok(true)], [1, 2])
    ensures Retaining([1, 2], Elements([1])) == [1]
    ensures Reply(Delivered, exists y :: y in [1, 2] && y !in [1]) == Ok(true)
    ensures !Coherent(AfterBulk(map[2 := Ok(true)], Ok(true), [1]), [1])
  {
  }

  /** The evident intent of `retainAll`'s invalidation: only elements outside
      the argument can leave the collection, so those are the entries to drop. */
  function AfterRetainAll<E>(cache: map<E, Answer>, r: Result<bool>, c: seq<E>): map<E, Answer>
  {
    if r == Ok(true) then map x | x in cache && x in Elements(c) :: cache[x] else cache
  }

  /** With that invalidation, a `retainAll` keeps the cache in step with
      the backing collection. */
  lemma RetainAllCorrectedKeepsCoherence<E(!new)>(cache: map<E, Answer>, elems: seq<E>, c: seq<E>, d: Delivery)
    requires Coherent(cache, elems)
    ensures Coherent(
      AfterRetainAll(cache, Reply(d, exists y :: y in elems && y !in c), c),
      if d.Delivered? then Retaining(elems, Elements(c)) else elems)
  {
  }
}
