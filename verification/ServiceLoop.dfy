/** The service event loop (`serve_inner` in crates/rmcp/src/service.rs).

    The loop's own state and what each event does to it, and the system around it:
    callers, handlers, the transport and the queues between them. `ServeLoops` has
    the loop as a class, proved against this.
  */
module ServiceLoop {
  import opened JsonRpc

  /** The k-th request id drawn from the provider stands for its caller's one-shot channel. */
  type Responder = nat

  /** The k-th request handled stands for its cancellation token and its handler. */
  type Token = nat

  /** `AtomicU32Provider`: a counter that wraps. */
  function IdOf(r: Responder): RequestId {
    Number(r % U32_LIMIT)
  }

  datatype PeerSink =
    | SinkRequest(responder: Responder, id: RequestId, request: RequestBody)
    | SinkNotification(notification: NotificationBody)
  {
    /** What the loop passes to the transport for it. */
    function ToMessage(): Message {
      match this
      case SinkRequest(_, id, request) => Request(id, request)
      case SinkNotification(notification) => Notification(notification)
    }
  }

  datatype SendTask =
    | RequestTask(id: RequestId)
    | NotificationTask(notification: NotificationBody)

  datatype Outcome =
    | Replied(result: string)
    | McpError(error: string)
    | TransportSend(error: string)
    | CancelledBy(reason: Option<string>)

  /** A use of a responder: what it was told, and the id carried by the event that caused it. */
  datatype Answer = Answer(responder: Responder, cause: RequestId, outcome: Outcome)

  datatype Event =
    | ProxyMessage(sink: PeerSink)
    | PeerMessage(message: Message)
    | ToSink(message: Message)
    | SendTaskResult(task: SendTask, failure: Option<string>)

  /** The loop's pools and queue, and what it has done so far: ids of the requests
      it gave to handlers, messages passed to the transport, messages handled,
      responders used or dropped, tokens cancelled or lost. */
  datatype Core = Core(
    responderPool: map<RequestId, Responder>,
    ctPool: map<RequestId, Token>,
    batch: seq<Message>,
    sendTasks: multiset<SendTask>,
    requests: seq<RequestId>,
    sent: seq<Message>,
    handled: seq<Message>,
    answers: seq<Answer>,
    dropped: set<Responder>,
    cancelledByPeer: set<Token>,
    cancelledByReply: set<Token>,
    orphaned: set<Token>)
  {
    /** Takes the responder of a request out of the pool, if it is there, and uses it. */
    function Resolve(id: RequestId, outcome: Outcome): Core {
      if id in responderPool then
        this.(responderPool := responderPool - {id},
              answers := answers + [Answer(responderPool[id], id, outcome)])
      else this
    }

    function HandleProxy(sink: PeerSink): Core {
      match sink
      case SinkRequest(responder, id, request) =>
        this.(dropped := if id in responderPool then dropped + {responderPool[id]} else dropped,
              responderPool := responderPool[id := responder],
              sent := sent + [Request(id, request)],
              sendTasks := sendTasks + multiset{RequestTask(id)})
      case SinkNotification(notification) =>
        this.(sent := sent + [Notification(notification)],
              sendTasks := sendTasks + multiset{NotificationTask(notification)})
    }

    function HandlePeer(m: Message): Core {
      match m
      case Request(id, _) =>
        this.(orphaned := if id in ctPool then orphaned + {ctPool[id]} else orphaned,
              ctPool := ctPool[id := |requests|],
              requests := requests + [id],
              handled := handled + [m])
      case Notification(Cancelled(id, _)) =>
        if id in ctPool then
          this.(ctPool := ctPool - {id},
                cancelledByPeer := cancelledByPeer + {ctPool[id]},
                handled := handled + [m])
        else this.(handled := handled + [m])
      case Notification(_) => this.(handled := handled + [m])
      case Response(id, result) => this.(handled := handled + [m]).Resolve(id, Replied(result))
      case Error(id, error) => this.(handled := handled + [m]).Resolve(id, McpError(error))
      case BatchRequest(_) => this.(batch := batch + m.Flattened())
      case BatchResponse(_) => this.(batch := batch + m.Flattened())
    }

    /** Only responses and errors come through the sink; anything else is ignored. */
    function HandleToSink(m: Message): Core {
      if !m.IsReply() then this
      else if m.id in ctPool then
        this.(ctPool := ctPool - {m.id},
              cancelledByReply := cancelledByReply + {ctPool[m.id]},
              sent := sent + [m])
      else this.(sent := sent + [m])
    }

    /** A finished send answers its request only by failing; a finished
        cancellation notification answers the request it names, failed or not. */
    function HandleSendTask(task: SendTask, failure: Option<string>): Core {
      var c := this.(sendTasks := sendTasks - multiset{task});
      match task
      case RequestTask(id) => if failure.Some? then c.Resolve(id, TransportSend(failure.value)) else c
      case NotificationTask(Cancelled(id, reason)) => c.Resolve(id, CancelledBy(reason))
      case NotificationTask(_) => c
    }

    function Handle(ev: Event): Core {
      match ev
      case ProxyMessage(sink) => HandleProxy(sink)
      case PeerMessage(m) => HandlePeer(m)
      case ToSink(m) => HandleToSink(m)
      case SendTaskResult(task, failure) => HandleSendTask(task, failure)
    }

    /** One turn of the loop: a queued batch item comes before anything `select!` offers. */
    function Turn(choice: Event): Core {
      if batch != [] then this.(batch := batch[1..]).HandlePeer(batch[0]) else Handle(choice)
    }
  }

  /** Handling messages one after the other, with nothing in between. */
  function HandleAll(c: Core, ms: seq<Message>): Core
    decreases |ms|
  {
    if ms == [] then c else HandleAll(c.HandlePeer(ms[0]), ms[1..])
  }

  lemma HandleItem(c: Core, m: Message)
    requires !m.IsBatch()
    ensures c.HandlePeer(m).handled == c.handled + [m] && c.HandlePeer(m).batch == c.batch
    ensures c.HandlePeer(m).sent == c.sent
  {
  }

  lemma HandlePeerIgnoresBatch(c: Core, rest: seq<Message>, m: Message)
    requires !m.IsBatch()
    ensures c.(batch := rest).HandlePeer(m).(batch := []) == c.(batch := []).HandlePeer(m)
  {
  }

  function EmptyCore(): Core {
    Core(map[], map[], [], multiset{}, [], [], [], [], {}, {}, {}, {})
  }

  datatype Finished = Finished(token: Token, reply: Message)

  datatype QuitReason = QuitCancelled | QuitClosed | QuitJoinError

  const PEER_CHANNEL: nat := 1024
  const SINK_CHANNEL: nat := 64

  /** The loop in its surroundings. `first` is the first id left to it (the client's
      handshake takes id 0); `calling` are callers that drew an id and wait for
      room in the peer queue; `enqueued` is everything that ever got into it;
      `handlers` are the handlers still running. */
  datatype System = System(
    core: Core,
    first: nat,
    drawn: nat,
    calling: map<Responder, RequestBody>,
    peerQueue: seq<PeerSink>,
    enqueued: seq<PeerSink>,
    handlers: set<Token>,
    finished: seq<Finished>,
    sinkQueue: seq<Message>,
    received: seq<Message>,
    quit: Option<QuitReason>)

  datatype Step =
    | Call(request: RequestBody)
    | Enqueue(responder: Responder)
    | Notify(notification: NotificationBody)
    | HandlerDone(token: Token, result: Result<string, string>)
    | TurnBatch
    | TurnReceive(message: Message)
    | TurnProxy
    | TurnSink
    | TurnSendTask(task: SendTask, failure: Option<string>)
    | Quit(reason: QuitReason)

  /** When a step can happen. The loop looks at its sources, and can only quit,
      while no batch item is queued. */
  predicate Enabled(s: System, step: Step) {
    match step
    case Call(_) => true
    case Enqueue(r) => s.quit.None? && r in s.calling && |s.peerQueue| < PEER_CHANNEL
    case Notify(_) => s.quit.None? && |s.peerQueue| < PEER_CHANNEL
    case HandlerDone(t, _) => s.quit.None? && t in s.handlers && t < |s.core.requests| && |s.sinkQueue| < SINK_CHANNEL
    case TurnBatch => s.quit.None? && s.core.batch != []
    case TurnReceive(_) => s.quit.None? && s.core.batch == []
    case TurnProxy => s.quit.None? && s.core.batch == [] && s.peerQueue != []
    case TurnSink => s.quit.None? && s.core.batch == [] && s.sinkQueue != []
    case TurnSendTask(task, _) => s.quit.None? && s.core.batch == [] && task in s.core.sendTasks
    case Quit(reason) =>
      s.quit.None? && s.core.batch == [] && (reason.QuitJoinError? ==> s.core.sendTasks != multiset{})
  }

  function ReplyOf(id: RequestId, result: Result<string, string>): (m: Message)
    ensures m.IsReply() && m.id == id
  {
    match result
    case Ok(r) => Response(id, r)
    case Err(e) => Error(id, e)
  }

  function Queued(q: seq<PeerSink>): set<Responder> {
    set k | 0 <= k < |q| && q[k].SinkRequest? :: q[k].responder
  }

  /** Handling a request starts its handler. */
  function Started(before: Core, after: Core): set<Token> {
    if |before.requests| < |after.requests| then {|before.requests|} else {}
  }

  function TurnOf(s: System, choice: Event): System {
    var core := s.core.Turn(choice);
    s.(core := core, handlers := s.handlers + Started(s.core, core))
  }

  function Take(s: System, step: Step): System
    requires Enabled(s, step)
  {
    match step
    case Call(request) =>
      var r := s.drawn;
      if s.quit.None? then s.(drawn := r + 1, calling := s.calling[r := request])
      else s.(drawn := r + 1, core := s.core.(dropped := s.core.dropped + {r}))
    case Enqueue(r) =>
      var sink := SinkRequest(r, IdOf(r), s.calling[r]);
      s.(calling := s.calling - {r}, peerQueue := s.peerQueue + [sink], enqueued := s.enqueued + [sink])
    case Notify(notification) =>
      var sink := SinkNotification(notification);
      s.(peerQueue := s.peerQueue + [sink], enqueued := s.enqueued + [sink])
    case HandlerDone(t, result) =>
      var reply := ReplyOf(s.core.requests[t], result);
      s.(handlers := s.handlers - {t}, finished := s.finished + [Finished(t, reply)], sinkQueue := s.sinkQueue + [reply])
    case TurnBatch => TurnOf(s, PeerMessage(s.core.batch[0]))
    case TurnReceive(m) => TurnOf(s, PeerMessage(m)).(received := s.received + [m])
    case TurnProxy => TurnOf(s, ProxyMessage(s.peerQueue[0])).(peerQueue := s.peerQueue[1..])
    case TurnSink => TurnOf(s, ToSink(s.sinkQueue[0])).(sinkQueue := s.sinkQueue[1..])
    case TurnSendTask(task, failure) => TurnOf(s, SendTaskResult(task, failure))
    case Quit(reason) =>
      s.(quit := Some(reason),
         core := s.core.(responderPool := map[],
                         dropped := s.core.dropped + s.core.responderPool.Values + s.calling.Keys + Queued(s.peerQueue)),
         calling := map[], peerQueue := [])
  }

  /** A step that cannot happen changes nothing, so every list of steps is a run. */
  function Next(s: System, step: Step): System {
    if Enabled(s, step) then Take(s, step) else s
  }

  function Exec(first: nat, steps: seq<Step>): System {
    if steps == [] then Start(first) else Next(Exec(first, steps[..|steps| - 1]), steps[|steps| - 1])
  }

  function Start(first: nat): System {
    System(EmptyCore(), first, first, map[], [], [], {}, [], [], [], None)
  }
}
