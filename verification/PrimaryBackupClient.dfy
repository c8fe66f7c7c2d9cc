/** The client of a primary-backup partition: it asks the current primary
    which primitives of a type exist, and it assembles the decorator chain
    through which one primitive is used. Messaging and the primary election
    are inputs: the term the election reports, and what the request/response
    exchange with the primary produced. */
module PrimaryBackupClient {
  import opened Async

  datatype NodeId = NodeId(id: string)

  /** What the primary election reports for the partition; the primary is
      absent while a failover is in progress. */
  datatype PrimaryTerm = PrimaryTerm(term: nat, primary: Option<NodeId>, backups: seq<NodeId>)

  datatype MessageSubject = MessageSubject(name: string)

  datatype MetadataRequest = MetadataRequest(primitiveType: string)
  datatype Status = OK | ERROR
  datatype MetadataResponse = MetadataResponse(status: Status, primitiveNames: set<string>)

  /** How a request/response exchange ended: with a response, or with a
      transport error (timeout, no route, decoding failure). */
  datatype Exchange = Answered(response: MetadataResponse) | TransportError

  /** A request handed to the messaging service. */
  datatype Message = Message(subject: MessageSubject, request: MetadataRequest, target: NodeId)

  /** One `getPrimitives` call: the requests it sent and the future it completed. */
  datatype Lookup = Lookup(sent: seq<Message>, result: Result<set<string>>)

  /** The subject on which a client's metadata requests travel. */
  function MetadataSubject(clientName: string): (s: MessageSubject)
  {
    MessageSubject(clientName + "-metadata")
  }

  /** The subject ends in "-metadata" after the client name, so different
      clients never share a metadata subject. */
  lemma MetadataSubjectFormat(a: string, b: string)
    ensures |MetadataSubject(a).name| == |a| + 9
    ensures MetadataSubject(a).name[..|a|] == a
    ensures MetadataSubject(a).name[|a|..] == "-metadata"
    ensures MetadataSubject(a) == MetadataSubject(b) ==> a == b
  {
  }

  /** One layer of a proxy chain, outermost first. */
  datatype Layer = RecoveringLayer | RetryingLayer | BlockingAwareLayer

  /** Where the blocking-aware layer runs callbacks: an executor the caller
      configured, or a context taken from the client's factory. */
  datatype Executor = Configured(id: nat) | Pooled(context: nat)

  /** The builder options for one primitive proxy. */
  datatype ProxyConfig = ProxyConfig(
    name: string,
    primitiveType: string,
    maxRetries: int,
    retryDelayMillis: nat,
    executor: Option<nat>)

  /** The builder the recovering layer uses to (re)create the base
      primary-backup proxy whenever it needs one. */
  datatype BaseBuilder = BaseBuilder(clientName: string, name: string, primitiveType: string, maxRetries: int, retryDelayMillis: nat)

  datatype Proxy =
    | RecoveringProxy(clientName: string, name: string, primitiveType: string, base: BaseBuilder, context: nat)
    | RetryingProxy(inner: Proxy, context: nat, maxRetries: int, retryDelayMillis: nat)
    | BlockingAwareProxy(inner: Proxy, executor: Executor)

  function Layers(p: Proxy): seq<Layer>
  {
    match p
    case RecoveringProxy(_, _, _, _, _) => [RecoveringLayer]
    case RetryingProxy(inner, _, _, _) => [RetryingLayer] + Layers(inner)
    case BlockingAwareProxy(inner, _) => [BlockingAwareLayer] + Layers(inner)
  }

  /** The factory contexts a chain runs on, innermost first. */
  function Contexts(p: Proxy): seq<nat>
  {
    match p
    case RecoveringProxy(_, _, _, _, c) => [c]
    case RetryingProxy(inner, c, _, _) => Contexts(inner) + [c]
    case BlockingAwareProxy(inner, e) => Contexts(inner) + (if e.Pooled? then [e.context] else [])
  }

  /** The innermost layer of a chain. */
  function Innermost(p: Proxy): Proxy
  {
    match p
    case RecoveringProxy(_, _, _, _, _) => p
    case RetryingProxy(inner, _, _, _) => Innermost(inner)
    case BlockingAwareProxy(inner, _) => Innermost(inner)
  }

  /** How many contexts building one chain takes from the factory: one for
      the recovering layer, one for a retrying layer, one for the
      blocking-aware layer unless an executor is configured. */
  function ContextsNeeded(cfg: ProxyConfig): nat
  {
    1 + (if cfg.maxRetries > 0 then 1 else 0) + (if cfg.executor.None? then 1 else 0)
  }

  class DefaultPrimaryBackupClient {
    const clientName: string
    const factory: ContextFactory
    const threadContext: nat
    const metadataSubject: MessageSubject
    var contextOpen: bool

    constructor (clientName: string, factory: ContextFactory)
      modifies factory`created
      ensures this.clientName == clientName && this.factory == factory
      ensures metadataSubject == MetadataSubject(clientName)
      ensures threadContext == old(factory.created) && factory.created == old(factory.created) + 1
      ensures contextOpen
    {
      this.clientName := clientName;
      this.factory := factory;
      var context := factory.CreateContext();
      threadContext := context;
      metadataSubject := MetadataSubject(clientName);
      contextOpen := true;
    }

    /** `getPrimitives`: with no primary in the current term it fails with
        Unavailable and sends nothing; otherwise it sends one metadata
        request to the primary and completes with the response's names on
        OK, and with Unavailable on any other status or a transport error. */
    function GetPrimitives(primitiveType: string, term: PrimaryTerm, exchange: Exchange): (l: Lookup)
      ensures term.primary.None? ==> l.sent == []
      ensures term.primary.Some? ==>
        l.sent == [Message(metadataSubject, MetadataRequest(primitiveType), term.primary.value)]
      ensures l.result.Ok? <==> term.primary.Some? && exchange.Answered? && exchange.response.status == OK
      ensures l.result.Ok? ==> l.result.value == exchange.response.primitiveNames
      ensures l.result.Err? ==> l.result.failure == Unavailable
    {
      match term.primary
      case None => Lookup([], Err(Unavailable))
      case Some(primary) =>
        var sent := [Message(metadataSubject, MetadataRequest(primitiveType), primary)];
        match exchange
        case TransportError => Lookup(sent, Err(Unavailable))
        case Answered(response) =>
          if response.status == OK then Lookup(sent, Ok(response.primitiveNames))
          else Lookup(sent, Err(Unavailable))
    }

    /** `ProxyBuilder.build`: the recovering layer over a base-proxy builder,
        then a retrying layer only when `maxRetries > 0`, then the
        blocking-aware layer outermost, on the configured executor or on a
        fresh context. Each layer gets its own new context. */
    method BuildProxy(cfg: ProxyConfig) returns (p: Proxy)
      modifies factory`created
      ensures Layers(p) ==
        if cfg.maxRetries > 0 then [BlockingAwareLayer, RetryingLayer, RecoveringLayer]
        else [BlockingAwareLayer, RecoveringLayer]
      ensures Innermost(p) == RecoveringProxy(clientName, cfg.name, cfg.primitiveType,
        BaseBuilder(clientName, cfg.name, cfg.primitiveType, cfg.maxRetries, cfg.retryDelayMillis), old(factory.created))
      ensures cfg.maxRetries > 0 ==>
        p.inner.RetryingProxy? && p.inner.maxRetries == cfg.maxRetries && p.inner.retryDelayMillis == cfg.retryDelayMillis
      ensures p.BlockingAwareProxy? && (cfg.executor.Some? ==> p.executor == Configured(cfg.executor.value))
      ensures cfg.executor.None? ==> p.executor.Pooled?
      ensures factory.created == old(factory.created) + ContextsNeeded(cfg)
      ensures Contexts(p) == seq(ContextsNeeded(cfg), i => old(factory.created) + i)
    {
      var base := BaseBuilder(clientName, cfg.name, cfg.primitiveType, cfg.maxRetries, cfg.retryDelayMillis);
      var recoveringContext := factory.CreateContext();
      var recovering := RecoveringProxy(clientName, cfg.name, cfg.primitiveType, base, recoveringContext);
      var proxy := recovering;
      if cfg.maxRetries > 0 {
        var retryingContext := factory.CreateContext();
        proxy := RetryingProxy(proxy, retryingContext, cfg.maxRetries, cfg.retryDelayMillis);
        assert Layers(proxy) == [RetryingLayer, RecoveringLayer];
        assert Contexts(proxy) == [recoveringContext, retryingContext];
      }
      assert Innermost(proxy) == recovering;
      ghost var inner := Contexts(proxy);
      var executor: Executor;
      if cfg.executor.Some? {
        executor := Configured(cfg.executor.value);
      } else {
        var pooled := factory.CreateContext();
        executor := Pooled(pooled);
      }
      p := BlockingAwareProxy(proxy, executor);
      assert Contexts(p) == inner + (if executor.Pooled? then [executor.context] else []);
    }

    /** Closes the client's own context and its factory and returns an
        already-completed future. */
    method Close() returns (r: Result<()>)
      modifies this`contextOpen, factory`open
      ensures !contextOpen && !factory.open
      ensures r == Ok(())
    {
      contextOpen := false;
      factory.Close();
      r := Ok(());
    }
  }

  /** The end-to-end lookup for a COUNTER: with no primary it fails with
      Unavailable; once a primary answers OK with {"c1"} it yields {"c1"}. */
  lemma CounterLookupScenario(client: DefaultPrimaryBackupClient, node: NodeId)
    ensures client.GetPrimitives("COUNTER", PrimaryTerm(1, None, []), TransportError).result == Err(Unavailable)
    ensures client.GetPrimitives("COUNTER", PrimaryTerm(2, Some(node), []),
      Answered(MetadataResponse(OK, {"c1"}))).result == Ok({"c1"})
  {
  }
}
