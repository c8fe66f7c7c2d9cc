# Atomix collection, proxy and request core in Dafny

This project models five pieces of sequential logic from Atomix (and from
the Copycat Raft protocol it grew out of). In the source they sit under
asynchronous plumbing:

- **`CachingAsyncDistributedCollection`**: a read-through cache of membership
  answers in front of a distributed collection. The cache has a size bound.
  It is loaded from the backing collection's `contains`. Entries are dropped:
  - after a successful `add`, `addAll`, `retainAll` or `removeAll`;
  - always after `clear`;
  - on a mutation event from the backing collection;
  - when the backing primitive reports SUSPENDED or CLOSED.
- **`TranscodingAsyncDistributedCollection`**: a view of a collection of `E2`
  as a collection of `E1`. It goes through null-preserving encoder and
  decoder functions. It keeps an identity-keyed registry from user listeners
  to the internal listeners registered on the backing collection.
- **`DefaultPrimaryBackupClient`**, with three parts:
  - the metadata subject;
  - the `getPrimitives` lookup against the current primary;
  - the decorator chain `ProxyBuilder.build` assembles: recovering, optionally
    retrying, then blocking-aware.
- **`BlockingAwarePartitionProxy`**: wraps every listener. Invoking a wrapper
  queues one task on a sequential thread context. Operations complete on
  that context.
- **`AbstractRequest`**: a request with a mutable `uri`. Its hash depends only
  on the uri, and its printed form is fixed. A builder refuses a null uri.

Futures are modelled as already-resolved values `Result<T> = Ok(value) |
Err(failure)`. What the remote side did is an input of type `Delivery`
(`Delivered` or `Failed(f)`). A thread context is a FIFO queue of tasks. Its
ghost history records every task submitted and every task run.

Files, one module each:

- `Async.dfy`: the resolved-future types and the primitive states. It also
  holds `ThreadContext` (the task queue) and `ContextFactory`.
- `Collections.dfy`: the backing distributed collection the decorators
  delegate to. It is a class over a sequence of distinct elements, with
  Java `Collection` answers. This class is a collaborator the core calls,
  not a core file (see "Left out").
- `CachingCollection.dfy`, `TranscodingCollection.dfy`,
  `PrimaryBackupClient.dfy`, `BlockingAwareProxy.dfy`, `RaftRequest.dfy`:
  one per core class.

The cache's central notion is `Coherent(cache, elems)`: every successful
cached answer equals the element's actual membership. The model proves
coherence is kept by `add`, `addAll`, `removeAll`, `clear`, the state
listener, and a mutation event following a remote change. Two operations
leave a stale entry. The inherited `remove` does not touch the cache, so a
removed element's entry is stale until the backing collection's REMOVED
event arrives (`RemoveWaitsForEvent`). `retainAll` as written invalidates
the wrong elements (see "Findings").

## Model

| member | source | states |
|---|---|---|
| CachingCollection.CachingAsyncCollection.constructor | core/src/main/java/io/atomix/core/collection/impl/CachingAsyncDistributedCollection.java:63-79 | the cache starts empty with the given size bound; a fresh cache updater and a fresh status listener are registered on the backing collection, and nothing else is added to its registries |
| CachingCollection.CachingAsyncCollection.WithDefaultSize | core/src/main/java/io/atomix/core/collection/impl/CachingAsyncDistributedCollection.java:41-55 | as the constructor, with size bound 10000 |
| CachingCollection.CachingAsyncCollection.Get | core/src/main/java/io/atomix/core/collection/impl/CachingAsyncDistributedCollection.java:65-67 | a hit returns the stored answer and changes nothing; a miss returns the backing `contains` answer and stores it when the bound is positive; no other entry's answer changes; the size bound holds; coherence is preserved |
| CachingCollection.CachingAsyncCollection.MakeRoom | core/src/main/java/io/atomix/core/collection/impl/CachingAsyncDistributedCollection.java:65-66 | a full cache evicts at most one entry before a new one is stored, a cache that is not full keeps every entry, the others keep their answers, and the size bound holds |
| CachingCollection.CachingAsyncCollection.InvalidateOnSuccess | core/src/main/java/io/atomix/core/collection/impl/CachingAsyncDistributedCollection.java:92-96 | a `true` answer drops the entries of the argument; any other answer leaves the cache unchanged |
| CachingCollection.InvalidateEach | core/src/main/java/io/atomix/core/collection/impl/CachingAsyncDistributedCollection.java:94 | invalidating each element of `c` in turn leaves exactly the keys outside `c`, with their answers unchanged |
| CachingCollection.CachingAsyncCollection.Add | core/src/main/java/io/atomix/core/collection/impl/CachingAsyncDistributedCollection.java:82-88 | the caller gets the backing result; `e`'s entry is dropped exactly when that result is `true`, and the cache is otherwise unchanged; coherence is preserved |
| CachingCollection.CachingAsyncCollection.Remove | core/src/main/java/io/atomix/core/collection/impl/CachingAsyncDistributedCollection.java:40 | `remove` is inherited from the delegating superclass: the backing result and effect, with the cache untouched |
| CachingCollection.CachingAsyncCollection.AddAll | core/src/main/java/io/atomix/core/collection/impl/CachingAsyncDistributedCollection.java:91-97 | the caller gets the backing result; on `true` the entries of `c` are dropped and all others are untouched, otherwise nothing changes; coherence is preserved |
| CachingCollection.CachingAsyncCollection.RetainAll | core/src/main/java/io/atomix/core/collection/impl/CachingAsyncDistributedCollection.java:100-106 | the caller gets the backing result; on `true` the entries of the elements outside `c` are dropped (the corrected invalidation, see Findings), otherwise nothing changes; coherence is preserved |
| CachingCollection.CachingAsyncCollection.RemoveAll | core/src/main/java/io/atomix/core/collection/impl/CachingAsyncDistributedCollection.java:109-115 | the caller gets the backing result; on `true` the entries of `c` are dropped, otherwise nothing changes; coherence is preserved |
| CachingCollection.CachingAsyncCollection.Clear | core/src/main/java/io/atomix/core/collection/impl/CachingAsyncDistributedCollection.java:118-122 | the cache is empty afterwards whether the backing clear succeeded or failed |
| CachingCollection.CachingAsyncCollection.OnEvent | core/src/main/java/io/atomix/core/collection/impl/CachingAsyncDistributedCollection.java:68 | a mutation event drops exactly the named element's entry |
| CachingCollection.CachingAsyncCollection.OnStateChange | core/src/main/java/io/atomix/core/collection/impl/CachingAsyncDistributedCollection.java:69-76 | SUSPENDED or CLOSED empties the cache; CONNECTED leaves it unchanged |
| CachingCollection.AddAllKeepsCoherence | core/src/main/java/io/atomix/core/collection/impl/CachingAsyncDistributedCollection.java:91-97 | a coherent cache stays coherent across `addAll`, whether it succeeds, answers `false` or fails |
| CachingCollection.RemoveAllKeepsCoherence | core/src/main/java/io/atomix/core/collection/impl/CachingAsyncDistributedCollection.java:109-115 | the same for `removeAll` |
| CachingCollection.RemoteMutationThenEvent | core/src/main/java/io/atomix/core/collection/impl/CachingAsyncDistributedCollection.java:68 | after another client changes one element's membership, the event it publishes makes the cache coherent again |
| CachingCollection.RemoveWaitsForEvent | core/src/main/java/io/atomix/core/collection/impl/CachingAsyncDistributedCollection.java:68 | after a successful local `remove` a cached "present" answer is stale, and the REMOVED event makes the cache coherent again |
| CachingCollection.RetainAllLeavesStaleEntry | core/src/main/java/io/atomix/core/collection/impl/CachingAsyncDistributedCollection.java:100-106 | the as-written invalidation leaves an incoherent cache on a concrete input |
| CachingCollection.RetainAllCorrectedKeepsCoherence | core/src/main/java/io/atomix/core/collection/impl/CachingAsyncDistributedCollection.java:100-106 | dropping the entries of the elements outside the argument keeps a coherent cache coherent |
| TranscodingCollection.NullSafe | core/src/main/java/io/atomix/core/collection/impl/TranscodingAsyncDistributedCollection.java:56-57 | the wrapped function maps null and only null to null, and applies the user function to every other value |
| TranscodingCollection.TranscodingAsyncCollection.Encode | core/src/main/java/io/atomix/core/collection/impl/TranscodingAsyncDistributedCollection.java:56 | the collection's encoder is the null-safe wrapping of the user encoder |
| TranscodingCollection.TranscodingAsyncCollection.Decode | core/src/main/java/io/atomix/core/collection/impl/TranscodingAsyncDistributedCollection.java:57 | the collection's decoder is the null-safe wrapping of the user decoder |
| TranscodingCollection.NullSafeRoundTrip | core/src/main/java/io/atomix/core/collection/impl/TranscodingAsyncDistributedCollection.java:56-57 | the wrapped encoder maps null and only null to null; when the user functions undo each other, so do the wrapped ones |
| TranscodingCollection.MapAll | core/src/main/java/io/atomix/core/collection/impl/TranscodingAsyncDistributedCollection.java:106-123 | a bulk argument is mapped to a list of the same length whose element i is the wrapped function applied to input element i |
| TranscodingCollection.MapAllRoundTrip | core/src/main/java/io/atomix/core/collection/impl/TranscodingAsyncDistributedCollection.java:106-128 | decoding an encoded bulk argument gives the argument back |
| TranscodingCollection.TranscodingAsyncCollection.constructor | core/src/main/java/io/atomix/core/collection/impl/TranscodingAsyncDistributedCollection.java:51-58 | the listener registry starts empty |
| TranscodingCollection.TranscodingAsyncCollection.Size | core/src/main/java/io/atomix/core/collection/impl/TranscodingAsyncDistributedCollection.java:76-78 | the backing size, or the backing failure |
| TranscodingCollection.TranscodingAsyncCollection.IsEmpty | core/src/main/java/io/atomix/core/collection/impl/TranscodingAsyncDistributedCollection.java:91-93 | whether the backing collection is empty, or the backing failure |
| TranscodingCollection.TranscodingAsyncCollection.Contains | core/src/main/java/io/atomix/core/collection/impl/TranscodingAsyncDistributedCollection.java:101-103 | whether the encoded argument is in the backing collection |
| TranscodingCollection.TranscodingAsyncCollection.ContainsAll | core/src/main/java/io/atomix/core/collection/impl/TranscodingAsyncDistributedCollection.java:111-113 | whether every element of the argument, encoded, is in the backing collection |
| TranscodingCollection.TranscodingAsyncCollection.Iterator | core/src/main/java/io/atomix/core/collection/impl/TranscodingAsyncDistributedCollection.java:126-128 | yields the decoded backing elements, one for each, in backing order; fails exactly when the backing call fails |
| TranscodingCollection.TranscodingAsyncCollection.Add | core/src/main/java/io/atomix/core/collection/impl/TranscodingAsyncDistributedCollection.java:81-83 | the backing `add` of the encoded element: its answer and its effect |
| TranscodingCollection.TranscodingAsyncCollection.Remove | core/src/main/java/io/atomix/core/collection/impl/TranscodingAsyncDistributedCollection.java:86-88 | the backing `remove` of the encoded element |
| TranscodingCollection.TranscodingAsyncCollection.AddAll | core/src/main/java/io/atomix/core/collection/impl/TranscodingAsyncDistributedCollection.java:106-108 | the backing `addAll` of the element-wise encoded argument |
| TranscodingCollection.TranscodingAsyncCollection.RetainAll | core/src/main/java/io/atomix/core/collection/impl/TranscodingAsyncDistributedCollection.java:116-118 | the backing `retainAll` of the element-wise encoded argument |
| TranscodingCollection.TranscodingAsyncCollection.RemoveAll | core/src/main/java/io/atomix/core/collection/impl/TranscodingAsyncDistributedCollection.java:121-123 | the backing `removeAll` of the element-wise encoded argument |
| TranscodingCollection.TranscodingAsyncCollection.Clear | core/src/main/java/io/atomix/core/collection/impl/TranscodingAsyncDistributedCollection.java:96-98 | forwards `clear` unchanged |
| TranscodingCollection.TranscodingAsyncCollection.Close | core/src/main/java/io/atomix/core/collection/impl/TranscodingAsyncDistributedCollection.java:167-169 | forwards `close` unchanged |
| TranscodingCollection.TranscodingAsyncCollection.AddListener | core/src/main/java/io/atomix/core/collection/impl/TranscodingAsyncDistributedCollection.java:131-137 | a known listener reuses its wrapper and the registry is unchanged; a new one gets a fresh wrapper of itself; that wrapper is registered on the backing collection; the caller gets the backing registration future, and the entry stays even when that future fails; each entry wraps its own key |
| TranscodingCollection.TranscodingAsyncCollection.RemoveListener | core/src/main/java/io/atomix/core/collection/impl/TranscodingAsyncDistributedCollection.java:140-149 | a registered listener loses only its entry, only its wrapper is unregistered, and the caller gets the backing future; an unknown one changes neither registry and gets an already-completed future |
| TranscodingCollection.TranscodingAsyncCollection.AddStateChangeListener | core/src/main/java/io/atomix/core/collection/impl/TranscodingAsyncDistributedCollection.java:152-154 | the listener is registered on the backing collection as is |
| TranscodingCollection.TranscodingAsyncCollection.RemoveStateChangeListener | core/src/main/java/io/atomix/core/collection/impl/TranscodingAsyncDistributedCollection.java:157-159 | the listener is unregistered from the backing collection as is |
| TranscodingCollection.TranscodingAsyncCollection.Relay | core/src/main/java/io/atomix/core/collection/impl/TranscodingAsyncDistributedCollection.java:179-181 | an internal listener hands its own user listener an event of the same kind about the decoded element |
| TranscodingCollection.AddedElementIsIterated | core/src/main/java/io/atomix/core/collection/impl/TranscodingAsyncDistributedCollection.java:126-128 | an element whose encoding is in the backing collection appears, decoded, among the iterated elements |
| TranscodingCollection.RelayRoundTrip | core/src/main/java/io/atomix/core/collection/impl/TranscodingAsyncDistributedCollection.java:179-181 | an event about `encode(x)` reaches the user listener as an event about `x` |
| PrimaryBackupClient.DefaultPrimaryBackupClient.constructor | protocols/backup/src/main/java/io/atomix/protocols/backup/impl/DefaultPrimaryBackupClient.java:62-75 | the client takes one new context from the factory and derives its metadata subject from its name |
| PrimaryBackupClient.MetadataSubjectFormat | protocols/backup/src/main/java/io/atomix/protocols/backup/impl/DefaultPrimaryBackupClient.java:74 | the subject is the client name followed by "-metadata", so distinct clients have distinct subjects |
| PrimaryBackupClient.DefaultPrimaryBackupClient.GetPrimitives | protocols/backup/src/main/java/io/atomix/protocols/backup/impl/DefaultPrimaryBackupClient.java:84-113 | with no primary: Unavailable and nothing sent; otherwise one request with the type goes to the primary on the metadata subject; success iff the response is OK, with exactly its names; else Unavailable |
| PrimaryBackupClient.CounterLookupScenario | protocols/backup/src/main/java/io/atomix/protocols/backup/impl/DefaultPrimaryBackupClient.java:88-103 | a lookup during failover fails with Unavailable; an OK answer from a primary yields its names |
| PrimaryBackupClient.DefaultPrimaryBackupClient.BuildProxy | protocols/backup/src/main/java/io/atomix/protocols/backup/impl/DefaultPrimaryBackupClient.java:153-184 | the layers are blocking-aware over (retrying iff `maxRetries > 0`, with its settings) over recovering over the base builder; the executor is the configured one or a pooled context; every layer gets its own new context, in order |
| PrimaryBackupClient.DefaultPrimaryBackupClient.Close | protocols/backup/src/main/java/io/atomix/protocols/backup/impl/DefaultPrimaryBackupClient.java:116-120 | the client's context and the factory are closed and the result is already completed |
| BlockingAwareProxy.BlockingAwarePartitionProxy.constructor | primitive/src/main/java/io/atomix/primitive/proxy/impl/BlockingAwarePartitionProxy.java:39-42 | both listener maps start empty |
| BlockingAwareProxy.BlockingAwarePartitionProxy.AddStateChangeListener | primitive/src/main/java/io/atomix/primitive/proxy/impl/BlockingAwarePartitionProxy.java:45-49 | the listener maps to a fresh wrapper of itself, replacing any earlier entry, and that wrapper is added to the delegate |
| BlockingAwareProxy.BlockingAwarePartitionProxy.RemoveStateChangeListener | primitive/src/main/java/io/atomix/primitive/proxy/impl/BlockingAwarePartitionProxy.java:52-57 | the entry is dropped and exactly its wrapper leaves the delegate; an unknown listener leaves the delegate untouched |
| BlockingAwareProxy.BlockingAwarePartitionProxy.AddEventListener | primitive/src/main/java/io/atomix/primitive/proxy/impl/BlockingAwarePartitionProxy.java:65-69 | as for state listeners, keyed by the listener alone; the delegate gains (event type, wrapper) |
| BlockingAwareProxy.BlockingAwarePartitionProxy.RemoveEventListener | primitive/src/main/java/io/atomix/primitive/proxy/impl/BlockingAwarePartitionProxy.java:72-77 | the entry is dropped and the delegate loses the wrapper under the event type given to this call |
| BlockingAwareProxy.BlockingAwarePartitionProxy.InvokeStateWrapper | primitive/src/main/java/io/atomix/primitive/proxy/impl/BlockingAwarePartitionProxy.java:46 | invoking a wrapper appends exactly one task, calling the wrapped listener with the same state |
| BlockingAwareProxy.BlockingAwarePartitionProxy.InvokeEventWrapper | primitive/src/main/java/io/atomix/primitive/proxy/impl/BlockingAwarePartitionProxy.java:66 | the same for events |
| BlockingAwareProxy.BlockingAwarePartitionProxy.Execute | primitive/src/main/java/io/atomix/primitive/proxy/impl/BlockingAwarePartitionProxy.java:60-62 | the delegate runs the operation once, and its result completes the caller's future from one task on the context |
| BlockingAwareProxy.DeliveryFollowsInvocationOrder | primitive/src/main/java/io/atomix/primitive/proxy/impl/BlockingAwarePartitionProxy.java:46 | from any queue, two wrapper invocations submit their callbacks in invocation order, and running the context delivers the tasks already waiting, then the first callback, then the second |
| BlockingAwareProxy.ReAddThenRemoveKeepsFirstWrapper | primitive/src/main/java/io/atomix/primitive/proxy/impl/BlockingAwarePartitionProxy.java:45-57 | adding a listener twice and removing it once leaves the first wrapper registered on the delegate |
| RaftRequest.StringHash | core/src/main/java/net/kuujo/copycat/raft/protocol/AbstractRequest.java:36 | `String.hashCode` stays in the 32-bit signed range |
| RaftRequest.StringHashSamples | core/src/main/java/net/kuujo/copycat/raft/protocol/AbstractRequest.java:36 | the model gives the JDK's hashes for "a" and "ab" |
| RaftRequest.ObjectsHash | core/src/main/java/net/kuujo/copycat/raft/protocol/AbstractRequest.java:36 | `Objects.hash` of the uri stays in the 32-bit signed range |
| RaftRequest.Request.Uri | core/src/main/java/net/kuujo/copycat/raft/protocol/AbstractRequest.java:30-32 | `uri()` reads the field `withUri` writes (see `BuildAfterWithUri`) |
| RaftRequest.Request.ToString | core/src/main/java/net/kuujo/copycat/raft/protocol/AbstractRequest.java:40-42 | the printed form is the class name, "[uri=", the uri's text ("null" for a null uri) and "]" |
| RaftRequest.Request.HashCode | core/src/main/java/net/kuujo/copycat/raft/protocol/AbstractRequest.java:35-37 | the request hash is a 32-bit signed value |
| RaftRequest.HashDependsOnlyOnUri | core/src/main/java/net/kuujo/copycat/raft/protocol/AbstractRequest.java:35-37 | requests with equal uris have equal hashes |
| RaftRequest.DescribeParts | core/src/main/java/net/kuujo/copycat/raft/protocol/AbstractRequest.java:40-42 | the printed form is the class name, then "[uri=", then the uri text, then "]" |
| RaftRequest.DescribeInjective | core/src/main/java/net/kuujo/copycat/raft/protocol/AbstractRequest.java:40-42 | two requests of one class print alike exactly when their uris print alike |
| RaftRequest.NullUriLookalikes | core/src/main/java/net/kuujo/copycat/raft/protocol/AbstractRequest.java:35-42 | a null uri prints like the uri "null" and hashes like the empty uri |
| RaftRequest.Request.constructor | core/src/main/java/net/kuujo/copycat/raft/protocol/AbstractRequest.java:27 | a new request has no uri |
| RaftRequest.Builder.constructor | core/src/main/java/net/kuujo/copycat/raft/protocol/AbstractRequest.java:53-55 | the builder holds the request it was given |
| RaftRequest.Builder.WithUri | core/src/main/java/net/kuujo/copycat/raft/protocol/AbstractRequest.java:59-63 | a null uri is rejected and changes nothing; otherwise the request's uri is set and the same builder is returned |
| RaftRequest.Builder.Build | core/src/main/java/net/kuujo/copycat/raft/protocol/AbstractRequest.java:66-69 | succeeds exactly when the uri is set, returning the very request being built |
| RaftRequest.BuildAfterWithUri | core/src/main/java/net/kuujo/copycat/raft/protocol/AbstractRequest.java:30-32 | after `withUri(u)`, `build()` returns the request and `uri()` reads `u` |

## Left out

- CachingCollection.CachingAsyncCollection.RetainAll: follows the corrected
  invalidation, not the source's, which drops the entries of the retained
  elements. The source's behaviour is kept in `AfterBulk` and exhibited by
  `RetainAllLeavesStaleEntry` (see Findings).

- Threads, `synchronized` and concurrent maps are not modelled. Every
  operation runs to completion before the next begins. Futures are
  already-resolved `Result` values, and callback scheduling
  (`whenComplete`, `whenCompleteAsync`, `thenApply`) happens in the same step
  as the operation.
- The backing distributed collection, the delegate partition proxy and the
  thread contexts are collaborators, not part of the core. Each is modelled
  by what the core can observe of it:
  - the collection's contents as a sequence of distinct elements;
  - its answers follow the Java `Collection` contract;
  - its listener registries are sets, updated locally at once; the future a
    registration returns reports only the subscription with the replicas;
  - on a failed call its contents are unchanged.
- A remote call that applies its change and then reports a failure is not
  modelled.
- Eviction order in the Guava cache (least recently used) is not modelled.
  Only the size bound is kept, and an arbitrary entry is evicted on a full
  miss. A negative cache size, which Guava refuses, cannot be expressed
  because the size is a `nat`.
- `CachingAsyncDistributedCollection` does not override `contains`, so a
  `contains` call goes straight to the backing collection. The cache is
  consulted only through its own `get` (modelled as `Get`). A cached answer
  is the resolved future. A future still in flight when it is cached is not
  modelled.
- When a backing mutation fails, the source's completion callback unboxes a
  null result. The returned future keeps the original failure. The model
  shows only that outcome: the cache is unchanged.
- Log statements in the status listener are left out.
- Transcoding `name`, `type` and `protocol` are modelled as plain forwarding
  functions with no contract of their own.
- `TranscodingAsyncDistributedCollection.sync` is not modelled: it builds a
  blocking wrapper whose class is not part of this model.
- The transcoding iterator is modelled as the decoded snapshot of the backing
  elements. Laziness and single-pass consumption are not modelled.
- The encoder and decoder are total functions. A user function that returns
  null for a non-null argument is not modelled.
- The caching collection drops the futures of its own listener
  registrations, as the source does. The model registers both listeners
  whatever those futures report.
- The retry and recovery behaviour inside the recovering and retrying
  proxies, and the base primary-backup proxy, are not part of this model.
  Only the choice and order of the layers is modelled.
- `DefaultPrimaryBackupClient.Builder.build` is not modelled. It chooses a
  thread factory from the configured thread model.
- Serialisation, the messaging service and the primary election are inputs:
  - the current term;
  - the outcome of the request/response exchange.
- `getPrimitives` runs both its steps on the client's own thread context:
  reading the primary, and completing the future from the response. Those
  two hops onto that context are not modelled.
- The listener maps of `BlockingAwarePartitionProxy` are keyed by Dafny
  object identity. The source's concurrent maps compare keys with `equals`.
  The two agree for listeners that do not override `equals`, such as
  lambdas; other listeners are not modelled. The transcoding collection's
  registry is an identity map in the source too.
- A null element in the caching collection is not modelled: its element
  type has no null. Guava's cache refuses null keys. So in the source a
  successful `add(null)` fails its returned future after the backing
  collection changed. And a null inside the argument of `addAll`,
  `retainAll` or `removeAll` stops the invalidation loop, so the elements
  after it keep their entries.
- `ThreadContext` accepts tasks after it is closed. The source leaves that
  case to the context implementation.
- RaftRequest.StringHash: hashes each Dafny character once, where Java
  hashes the UTF-16 code units. The two agree on the Basic Multilingual
  Plane. A character outside it is two units in Java and is not modelled.
- `getClass().getCanonicalName()` is the concrete request subclass's name.
  It is a constructor argument here.

## Findings

| source | as written | input that shows it | evidently intended | confidence | as-written member | corrected member |
|---|---|---|---|---|---|---|
| core/src/main/java/io/atomix/core/collection/impl/CachingAsyncDistributedCollection.java:100-106 | a successful `retainAll(c)` invalidates the cache entries of the elements of `c`, which are exactly the elements that stay | backing {1, 2}, cache {2: true}; `retainAll([1])` answers true and the backing becomes {1}, yet the cache still answers "2 is present" | drop the entries of the elements outside `c`, the only ones `retainAll` can remove | medium, not executed (a later REMOVED event for 2 from the backing collection would also drop the stale entry) | CachingCollection.RetainAllLeavesStaleEntry | CachingCollection.RetainAllCorrectedKeepsCoherence |
