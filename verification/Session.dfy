/** The streamable-HTTP session as a transition system: how handler messages find
    a stream and how HTTP requests own resources
    (`SessionWorker` in crates/rmcp/src/transport/streamable_http_server/session.rs). */
module Session {
  import opened JsonRpc
  import opened EventIds
  import opened Streams

  type HttpRequestId = nat

  datatype ResourceKey = McpRequestId(id: RequestId) | ProgressToken(token: RequestId)

  datatype HttpRequestWise = HttpRequestWise(resources: set<ResourceKey>, stream: Stream)

  datatype SessionEvent =
    | FromHandler(message: Message, wake: Wake)
    | ClientMessage(message: Message, httpRequestId: Option<HttpRequestId>)
    | EstablishRequestWiseChannel
    | CloseRequestWiseChannel(id: HttpRequestId)
    | ResumeStream(lastEventId: EventId)
    | Receiver(stream: Option<HttpRequestId>, act: Wake)

  datatype Worker = Worker(
    nextHttpRequestId: HttpRequestId,
    txRouter: map<HttpRequestId, HttpRequestWise>,
    resourceRouter: map<ResourceKey, HttpRequestId>,
    common: Stream,
    channelCapacity: nat)
  {
    function UnregisterResource(key: ResourceKey): Worker {
      if key !in resourceRouter then this
      else
        var id := resourceRouter[key];
        var w := this.(resourceRouter := resourceRouter - {key});
        if id !in txRouter then w
        else
          var rest := txRouter[id].resources - {key};
          w.(txRouter := if rest == {} then txRouter - {id} else txRouter[id := txRouter[id].(resources := rest)])
    }

    function RegisterResource(key: ResourceKey, id: HttpRequestId): Worker {
      if id !in txRouter then this
      else
        var channel := txRouter[id];
        this.(txRouter := txRouter[id := channel.(resources := channel.resources + {key})],
              resourceRouter := resourceRouter[key := id])
    }

    function RegisterRequest(requestId: RequestId, request: RequestBody, id: HttpRequestId): Worker {
      var w := RegisterResource(McpRequestId(requestId), id);
      match request.progressToken
      case Some(token) => w.RegisterResource(ProgressToken(token), id)
      case None => w
    }

    function CatchCancellation(notification: NotificationBody): Worker {
      match notification
      case Cancelled(requestId, _) => UnregisterResource(McpRequestId(requestId))
      case _ => this
    }

    /** The counter wraps at 64 bits; an id still in use would be overwritten. */
    function Establish(): (Worker, HttpRequestId) {
      var id := nextHttpRequestId;
      var stream := Stream(Some(id), channelCapacity, [], Link(channelCapacity, [], true));
      (this.(nextHttpRequestId := (id + 1) % U64_LIMIT,
             txRouter := txRouter[id := HttpRequestWise({}, stream)]), id)
    }

    function Lookup(key: ResourceKey): Option<HttpRequestId> {
      if key in resourceRouter then Some(resourceRouter[key]) else None
    }

    /** `None` stands for the common stream. */
    function ResolveOutbound(m: Message): Option<HttpRequestId>
      requires !m.IsBatch()
    {
      match m
      case Request(_, _) => None
      case Response(id, _) => Lookup(McpRequestId(id))
      case Error(id, _) => Lookup(McpRequestId(id))
      case Notification(Progress(token, _)) => Lookup(ProgressToken(token))
      case Notification(Cancelled(requestId, _)) => Lookup(McpRequestId(requestId))
      case Notification(_) => None
    }

    function HandleServerMessage(m: Message, wake: Wake): (Worker, Result<(), SessionError>)
      requires !m.IsBatch()
    {
      match ResolveOutbound(m)
      case None => (this.(common := common.Send(m, wake)), Ok(()))
      case Some(id) =>
        if id in txRouter then
          var channel := txRouter[id];
          (this.(txRouter := txRouter[id := channel.(stream := channel.stream.Send(m, wake))]), Ok(()))
        else (this, Err(ChannelClosed(Some(id))))
    }

    function Resume(e: EventId): (Worker, Result<(), SessionError>) {
      match e.httpRequestId
      case None =>
        var (s, r) := common.Resume(e.index, channelCapacity);
        (this.(common := s), r)
      case Some(id) =>
        if id !in txRouter then (this, Err(ChannelClosed(Some(id))))
        else
          var channel := txRouter[id];
          var (s, r) := channel.stream.Resume(e.index, channelCapacity);
          (this.(txRouter := txRouter[id := channel.(stream := s)]), r)
    }

    /** A reply ends its request before the stream it goes to is looked up. */
    function CatchReply(m: Message): Worker {
      if m.IsReply() then UnregisterResource(McpRequestId(m.id)) else this
    }

    function CatchBatchItem(item: BatchRequestItem, http: Option<HttpRequestId>): Worker {
      match item
      case ItemRequest(id, request) => if http.Some? then RegisterRequest(id, request, http.value) else this
      case ItemNotification(notification) => CatchCancellation(notification)
    }

    function CatchBatch(items: seq<BatchRequestItem>, http: Option<HttpRequestId>): Worker
      decreases |items|
    {
      if items == [] then this
      else CatchBatch(items[..|items| - 1], http).CatchBatchItem(items[|items| - 1], http)
    }

    function CatchClientMessage(m: Message, http: Option<HttpRequestId>): Worker {
      match m
      case Request(id, request) => if http.Some? then RegisterRequest(id, request, http.value) else this
      case Notification(notification) => CatchCancellation(notification)
      case BatchRequest(items) => CatchBatch(items, http)
      case _ => this
    }

    function ReceiverActs(stream: Option<HttpRequestId>, act: Wake): Worker {
      match stream
      case None => this.(common := common.(link := common.link.Receive(act)))
      case Some(id) =>
        if id !in txRouter then this
        else
          var channel := txRouter[id];
          var s := channel.stream;
          this.(txRouter := txRouter[id := channel.(stream := s.(link := s.link.Receive(act)))])
    }

    function Step(ev: SessionEvent): (Worker, Result<(), SessionError>)
      requires ev.FromHandler? ==> !ev.message.IsBatch()
    {
      match ev
      case FromHandler(m, wake) => CatchReply(m).HandleServerMessage(m, wake)
      case ClientMessage(m, http) => (CatchClientMessage(m, http), Ok(()))
      case EstablishRequestWiseChannel => (Establish().0, Ok(()))
      case CloseRequestWiseChannel(id) => (this.(txRouter := txRouter - {id}), Ok(()))
      case ResumeStream(e) => Resume(e)
      case Receiver(stream, act) => (ReceiverActs(stream, act), Ok(()))
    }
  }

  function CreateSession(channelCapacity: nat): Worker {
    Worker(0, map[], map[],
           Stream(None, channelCapacity, [], Link(channelCapacity, [], false)), channelCapacity)
  }
}
