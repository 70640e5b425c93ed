/** The session worker as it runs: maps updated in place over cached streams,
    proved step by step against `Session`
    (crates/rmcp/src/transport/streamable_http_server/session.rs). */
module SessionWorkers {
  import opened JsonRpc
  import opened EventIds
  import opened Streams
  import opened CachedStreams
  import Session

  type ResourceKey = Session.ResourceKey
  type HttpRequestId = Session.HttpRequestId

  /** The channel of one HTTP request and the resources routed to it. */
  datatype RequestWise = RequestWise(resources: set<ResourceKey>, tx: CachedTx)

  class SessionWorker {
    var nextHttpRequestId: HttpRequestId
    var txRouter: map<HttpRequestId, RequestWise>
    var resourceRouter: map<ResourceKey, HttpRequestId>
    const common: CachedTx
    const channelCapacity: nat
    /** What `txRouter` is, read through the streams it holds, and those streams. */
    ghost var router: map<HttpRequestId, Session.HttpRequestWise>
    ghost var streams: set<CachedTx>

    constructor (channelCapacity: nat)
      requires channelCapacity >= 1
      ensures Valid() && fresh(common) && streams == {}
      ensures View() == Session.CreateSession(channelCapacity)
    {
      this.channelCapacity := channelCapacity;
      nextHttpRequestId, txRouter, resourceRouter := 0, map[], map[];
      common := new CachedTx(Link(channelCapacity, [], false), None);
      router, streams := map[], {};
    }

    ghost predicate Valid()
      reads this`txRouter, this`router, this`streams, common, streams
    {
      && channelCapacity >= 1
      && common.Valid() && common.httpRequestId == None && common.capacity == channelCapacity
      && (forall tx: CachedTx {:trigger tx.Valid()} :: tx in streams ==> tx.Valid())
      && router.Keys == txRouter.Keys
      && forall id :: id in txRouter ==>
           && txRouter[id].tx in streams
           && txRouter[id].tx.httpRequestId == Some(id)
           && txRouter[id].tx.capacity == channelCapacity
           && router[id] == Session.HttpRequestWise(txRouter[id].resources, txRouter[id].tx.View())
    }

    ghost function View(): Session.Worker
      reads this, common
    {
      Session.Worker(nextHttpRequestId, router, resourceRouter, common.View(), channelCapacity)
    }

    /** Streams of different requests, and the common one, are different objects. */
    lemma OthersApart(id: HttpRequestId)
      requires Valid() && id in txRouter
      ensures txRouter[id].tx != common
      ensures forall j :: j in txRouter && j != id ==> txRouter[j].tx != txRouter[id].tx
    {
    }

    method InsertChannel(id: HttpRequestId)
      requires Valid()
      modifies this`txRouter, this`router, this`streams
      ensures Valid() && fresh(streams - old(streams))
      ensures router == old(router)[id := Session.HttpRequestWise({},
                          Stream(Some(id), channelCapacity, [], Link(channelCapacity, [], true)))]
    {
      var tx := NewChannel(id);
      Install(id, tx);
    }

    method NewChannel(id: HttpRequestId) returns (tx: CachedTx)
      requires Valid()
      ensures Valid() && fresh(tx) && tx.Valid()
      ensures tx.httpRequestId == Some(id) && tx.capacity == channelCapacity
      ensures tx.View() == Stream(Some(id), channelCapacity, [], Link(channelCapacity, [], true))
    {
      tx := new CachedTx(Link(channelCapacity, [], true), Some(id));
    }

    method Install(id: HttpRequestId, tx: CachedTx)
      requires Valid() && tx.Valid() && tx !in streams
      requires tx.httpRequestId == Some(id) && tx.capacity == channelCapacity
      modifies this`txRouter, this`router, this`streams
      ensures Valid() && streams == old(streams) + {tx}
      ensures router == old(router)[id := Session.HttpRequestWise({}, tx.View())]
    {
      txRouter, streams := txRouter[id := RequestWise({}, tx)], streams + {tx};
      router := router[id := Session.HttpRequestWise({}, tx.View())];
    }

    method UnregisterResource(key: ResourceKey)
      requires Valid()
      modifies this`txRouter, this`router, this`resourceRouter
      ensures Valid()
      ensures View() == old(View()).UnregisterResource(key)
    {
      if key in resourceRouter {
        var id := resourceRouter[key];
        if id in txRouter {
          var resources := txRouter[id].resources - {key};
          if resources == {} {
            txRouter, router := txRouter - {id}, router - {id};
          } else {
            txRouter, router := txRouter[id := txRouter[id].(resources := resources)],
                                router[id := router[id].(resources := resources)];
          }
        }
        resourceRouter := resourceRouter - {key};
      }
    }

    method RegisterResource(key: ResourceKey, id: HttpRequestId)
      requires Valid()
      modifies this`txRouter, this`router, this`resourceRouter
      ensures Valid()
      ensures View() == old(View()).RegisterResource(key, id)
    {
      if id in txRouter {
        var resources := txRouter[id].resources + {key};
        txRouter, router := txRouter[id := txRouter[id].(resources := resources)],
                            router[id := router[id].(resources := resources)];
        resourceRouter := resourceRouter[key := id];
      }
    }

    method RegisterRequest(requestId: RequestId, request: RequestBody, id: HttpRequestId)
      requires Valid()
      modifies this`txRouter, this`router, this`resourceRouter
      ensures Valid()
      ensures View() == old(View()).RegisterRequest(requestId, request, id)
    {
      RegisterResource(Session.McpRequestId(requestId), id);
      match request.progressToken
      case Some(token) => RegisterResource(Session.ProgressToken(token), id);
      case None =>
    }

    method CatchCancellation(notification: NotificationBody)
      requires Valid()
      modifies this`txRouter, this`router, this`resourceRouter
      ensures Valid()
      ensures View() == old(View()).CatchCancellation(notification)
    {
      match notification
      case Cancelled(requestId, _) => UnregisterResource(Session.McpRequestId(requestId));
      case _ =>
    }

    method NextHttpRequestId() returns (id: HttpRequestId)
      modifies this`nextHttpRequestId
      ensures id == old(nextHttpRequestId)
      ensures nextHttpRequestId == (id + 1) % U64_LIMIT
    {
      id := nextHttpRequestId;
      nextHttpRequestId := (nextHttpRequestId + 1) % U64_LIMIT;
    }

    method EstablishRequestWiseChannel() returns (id: HttpRequestId)
      requires Valid()
      modifies this
      ensures Valid() && fresh(streams - old(streams))
      ensures (View(), id) == old(View()).Establish()
    {
      id := NextHttpRequestId();
      InsertChannel(id);
    }

    function Lookup(key: ResourceKey): Option<HttpRequestId>
      reads this`resourceRouter
    {
      if key in resourceRouter then Some(resourceRouter[key]) else None
    }

    function ResolveOutboundChannel(m: Message): Option<HttpRequestId>
      requires !m.IsBatch()
      reads this`resourceRouter
    {
      match m
      case Response(id, _) => Lookup(Session.McpRequestId(id))
      case Error(id, _) => Lookup(Session.McpRequestId(id))
      case Notification(Progress(token, _)) => Lookup(Session.ProgressToken(token))
      case Notification(Cancelled(requestId, _)) => Lookup(Session.McpRequestId(requestId))
      case _ => None
    }

    method SendOn(id: HttpRequestId, m: Message, wake: Wake)
      requires Valid() && id in txRouter
      modifies this`router, streams
      ensures Valid() && unchanged(common)
      ensures router == old(router)[id := old(router)[id].(stream := old(router)[id].stream.Send(m, wake))]
    {
      OthersApart(id);
      txRouter[id].tx.Send(m, wake);
      router := router[id := router[id].(stream := txRouter[id].tx.View())];
    }

    method HandleServerMessage(m: Message, wake: Wake) returns (r: Result<(), SessionError>)
      requires Valid() && !m.IsBatch()
      modifies this`router, common, streams
      ensures Valid()
      ensures (View(), r) == old(View()).HandleServerMessage(m, wake)
    {
      match ResolveOutboundChannel(m)
      case None =>
        common.Send(m, wake);
        r := Ok(());
      case Some(id) =>
        if id in txRouter {
          SendOn(id, m, wake);
          r := Ok(());
        } else {
          r := Err(ChannelClosed(Some(id)));
        }
    }

    method Resume(e: EventId) returns (r: Result<(), SessionError>)
      requires Valid()
      modifies this`router, common`tx, streams
      ensures Valid()
      ensures (View(), r) == old(View()).Resume(e)
    {
      match e.httpRequestId
      case None =>
        r := ResumeTx(common, e.index);
      case Some(id) =>
        if id in txRouter {
          OthersApart(id);
          r := ResumeTx(txRouter[id].tx, e.index);
          router := router[id := router[id].(stream := txRouter[id].tx.View())];
        } else {
          r := Err(ChannelClosed(Some(id)));
        }
    }

    /** Replaces the stream's channel and replays into the new one before its
        receiver is handed out; on failure that receiver is dropped. */
    method ResumeTx(tx: CachedTx, index: nat) returns (r: Result<(), SessionError>)
      requires tx.Valid() && tx.capacity <= channelCapacity
      modifies tx`tx
      ensures tx.Valid()
      ensures (tx.View(), r) == old(tx.View()).Resume(index, channelCapacity)
    {
      tx.tx := Link(channelCapacity, [], true);
      r := tx.Sync(index);
      if r.Err? {
        tx.tx := tx.tx.Receive(Drops);
      }
    }

    method CatchReply(m: Message)
      requires Valid()
      modifies this`txRouter, this`router, this`resourceRouter
      ensures Valid()
      ensures View() == old(View()).CatchReply(m)
    {
      match m
      case Response(id, _) => UnregisterResource(Session.McpRequestId(id));
      case Error(id, _) => UnregisterResource(Session.McpRequestId(id));
      case _ =>
    }

    method CatchClientMessage(m: Message, http: Option<HttpRequestId>)
      requires Valid()
      modifies this`txRouter, this`router, this`resourceRouter
      ensures Valid()
      ensures View() == old(View()).CatchClientMessage(m, http)
    {
      match m
      case Request(id, request) =>
        if http.Some? {
          RegisterRequest(id, request, http.value);
        }
      case Notification(notification) => CatchCancellation(notification);
      case BatchRequest(items) =>
        for k := 0 to |items|
          invariant Valid()
          invariant View() == old(View()).CatchBatch(items[..k], http)
        {
          assert items[..k + 1][..k] == items[..k];
          match items[k]
          case ItemRequest(id, request) =>
            if http.Some? {
              RegisterRequest(id, request, http.value);
            }
          case ItemNotification(notification) => CatchCancellation(notification);
        }
        assert items[..|items|] == items;
      case _ =>
    }

    /** One turn of the `run` loop. */
    method HandleEvent(ev: Session.SessionEvent) returns (r: Result<(), SessionError>)
      requires Valid()
      requires ev.FromHandler? ==> !ev.message.IsBatch()
      modifies this, common, streams
      ensures Valid() && fresh(streams - old(streams))
      ensures (View(), r) == old(View()).Step(ev)
    {
      r := Ok(());
      match ev
      case FromHandler(m, wake) =>
        CatchReply(m);
        r := HandleServerMessage(m, wake);
      case ClientMessage(m, http) =>
        CatchClientMessage(m, http);
      case EstablishRequestWiseChannel =>
        var id := EstablishRequestWiseChannel();
      case CloseRequestWiseChannel(id) =>
        txRouter, router := txRouter - {id}, router - {id};
      case ResumeStream(e) =>
        r := Resume(e);
      case Receiver(stream, act) =>
        ReceiverActs(stream, act);
    }

    /** What the HTTP side does with the receiving end of a stream's channel. */
    method ReceiveOn(id: HttpRequestId, act: Wake)
      requires Valid() && id in txRouter
      modifies this`router, streams
      ensures Valid() && unchanged(common)
      ensures
        var s := old(router)[id].stream;
        router == old(router)[id := old(router)[id].(stream := s.(link := s.link.Receive(act)))]
    {
      OthersApart(id);
      txRouter[id].tx.Receive(act);
      router := router[id := router[id].(stream := txRouter[id].tx.View())];
    }

    method ReceiverActs(stream: Option<HttpRequestId>, act: Wake)
      requires Valid()
      modifies this`router, common`tx, streams
      ensures Valid()
      ensures View() == old(View()).ReceiverActs(stream, act)
    {
      match stream
      case None =>
        common.Receive(act);
      case Some(id) =>
        if id in txRouter {
          ReceiveOn(id, act);
        }
    }
  }
}
