/** The service event loop and the id provider as objects (crates/rmcp/src/service.rs). */
module ServeLoops {
  import opened JsonRpc
  import opened ServiceLoop

  /** What `select!` yields: an event, or a reason to leave the loop. */
  datatype Selected = Offered(event: Event) | Stop(reason: QuitReason)

  function Drain(c: Core): Core {
    HandleAll(c.(batch := []), c.batch)
  }

  /** The loop in simple form: queued batch items are handled at once, then each
      event offered, with the batch it brought, until a reason to stop. */
  function Served(c: Core, offered: seq<Selected>): (Core, Option<QuitReason>)
    decreases |offered|
  {
    if offered == [] then (Drain(c), None)
    else match offered[0]
      case Stop(reason) => (Drain(c), Some(reason))
      case Offered(ev) => Served(Drain(c).Handle(ev), offered[1..])
  }

  /** Popping one batch item leaves what draining the queue gives. */
  lemma PopDrains(c: Core)
    requires c.batch != [] && forall k :: 0 <= k < |c.batch| ==> !c.batch[k].IsBatch()
    ensures Drain(c.(batch := c.batch[1..]).HandlePeer(c.batch[0])) == Drain(c)
    ensures c.(batch := c.batch[1..]).HandlePeer(c.batch[0]).batch == c.batch[1..]
  {
    HandleItem(c.(batch := c.batch[1..]), c.batch[0]);
    HandlePeerIgnoresBatch(c, c.batch[1..], c.batch[0]);
  }

  class AtomicU32Provider {
    var id: U32
    ghost var drawn: nat

    ghost predicate Valid()
      reads this
    {
      id == drawn % U32_LIMIT
    }

    constructor ()
      ensures Valid() && drawn == 0
    {
      id := 0;
      drawn := 0;
    }

    method NextRequestId() returns (r: RequestId)
      requires Valid()
      modifies this
      ensures Valid() && drawn == old(drawn) + 1
      ensures r == IdOf(old(drawn))
    {
      r := Number(id);
      id := if id + 1 == U32_LIMIT then 0 else id + 1;
      drawn := drawn + 1;
    }
  }

  class ServeLoop {
    var localResponderPool: map<RequestId, Responder>
    var localCtPool: map<RequestId, Token>
    var batchMessages: seq<Message>
    var sendTaskSet: multiset<SendTask>
    var nextToken: Token
    ghost var log: Core

    /** The history is kept in `log`, whose pools and queue are not used. */
    ghost function View(): Core
      reads this
    {
      log.(responderPool := localResponderPool, ctPool := localCtPool, batch := batchMessages, sendTasks := sendTaskSet)
    }

    ghost predicate Valid()
      reads this
    {
      && nextToken == |log.requests|
      && forall k :: 0 <= k < |batchMessages| ==> !batchMessages[k].IsBatch()
    }

    constructor ()
      ensures Valid() && View() == EmptyCore()
    {
      localResponderPool, localCtPool := map[], map[];
      batchMessages, sendTaskSet, nextToken := [], multiset{}, 0;
      log := EmptyCore();
    }

    /** `local_responder_pool.remove` and `responder.send`. */
    method Resolve(id: RequestId, outcome: Outcome)
      requires Valid()
      modifies this`localResponderPool, this`log
      ensures Valid() && View() == old(View()).Resolve(id, outcome)
    {
      if id in localResponderPool {
        log := log.(answers := log.answers + [Answer(localResponderPool[id], id, outcome)]);
        localResponderPool := localResponderPool - {id};
      }
    }

    method OnProxyMessage(sink: PeerSink)
      requires Valid()
      modifies this`localResponderPool, this`sendTaskSet, this`log
      ensures Valid() && View() == old(View()).HandleProxy(sink)
    {
      match sink
      case SinkRequest(responder, id, request) =>
        if id in localResponderPool {
          log := log.(dropped := log.dropped + {localResponderPool[id]});
        }
        localResponderPool := localResponderPool[id := responder];
        log := log.(sent := log.sent + [Request(id, request)]);
        sendTaskSet := sendTaskSet + multiset{RequestTask(id)};
      case SinkNotification(notification) =>
        log := log.(sent := log.sent + [Notification(notification)]);
        sendTaskSet := sendTaskSet + multiset{NotificationTask(notification)};
    }

    method OnRequest(id: RequestId, request: RequestBody)
      requires Valid()
      modifies this`localCtPool, this`nextToken, this`log
      ensures Valid() && View() == old(View()).HandlePeer(Request(id, request))
    {
      if id in localCtPool {
        log := log.(orphaned := log.orphaned + {localCtPool[id]});
      }
      localCtPool := localCtPool[id := nextToken];
      nextToken := nextToken + 1;
      log := log.(requests := log.requests + [id], handled := log.handled + [Request(id, request)]);
    }

    method OnNotification(notification: NotificationBody)
      requires Valid()
      modifies this`localCtPool, this`log
      ensures Valid() && View() == old(View()).HandlePeer(Notification(notification))
    {
      match notification {
        case Cancelled(id, _) =>
          if id in localCtPool {
            log := log.(cancelledByPeer := log.cancelledByPeer + {localCtPool[id]});
            localCtPool := localCtPool - {id};
          }
        case _ =>
      }
      log := log.(handled := log.handled + [Notification(notification)]);
    }

    method OnPeerMessage(m: Message)
      requires Valid() && (m.IsBatch() ==> batchMessages == [])
      modifies this
      ensures Valid() && View() == old(View()).HandlePeer(m)
    {
      match m
      case Request(id, request) => OnRequest(id, request);
      case Notification(notification) => OnNotification(notification);
      case Response(id, result) =>
        log := log.(handled := log.handled + [m]);
        Resolve(id, Replied(result));
      case Error(id, error) =>
        log := log.(handled := log.handled + [m]);
        Resolve(id, McpError(error));
      case BatchRequest(_) => batchMessages := batchMessages + m.Flattened();
      case BatchResponse(_) => batchMessages := batchMessages + m.Flattened();
    }

    method OnToSink(m: Message)
      requires Valid()
      modifies this`localCtPool, this`log
      ensures Valid() && View() == old(View()).HandleToSink(m)
    {
      if m.Response? || m.Error? {
        if m.id in localCtPool {
          log := log.(cancelledByReply := log.cancelledByReply + {localCtPool[m.id]});
          localCtPool := localCtPool - {m.id};
        }
        log := log.(sent := log.sent + [m]);
      }
    }

    method OnSendTaskResult(task: SendTask, failure: Option<string>)
      requires Valid()
      modifies this`localResponderPool, this`sendTaskSet, this`log
      ensures Valid() && View() == old(View()).HandleSendTask(task, failure)
    {
      sendTaskSet := sendTaskSet - multiset{task};
      match task
      case RequestTask(id) =>
        if failure.Some? {
          Resolve(id, TransportSend(failure.value));
        }
      case NotificationTask(notification) =>
        match notification {
          case Cancelled(id, reason) => Resolve(id, CancelledBy(reason));
          case _ =>
        }
    }

    method HandleEvent(ev: Event)
      requires Valid() && (ev.PeerMessage? && ev.message.IsBatch() ==> batchMessages == [])
      modifies this
      ensures Valid() && View() == old(View()).Handle(ev)
    {
      match ev
      case ProxyMessage(sink) => OnProxyMessage(sink);
      case PeerMessage(m) => OnPeerMessage(m);
      case ToSink(m) => OnToSink(m);
      case SendTaskResult(task, failure) => OnSendTaskResult(task, failure);
    }

    /** One turn of the loop on the event that `select!` would yield. */
    method TakeTurn(choice: Event)
      requires Valid()
      modifies this
      ensures Valid() && View() == old(View()).Turn(choice)
    {
      if batchMessages != [] {
        var m := batchMessages[0];
        batchMessages := batchMessages[1..];
        HandleEvent(PeerMessage(m));
      } else {
        HandleEvent(choice);
      }
    }

    /** The whole loop over what its sources yield, one queued item at a time,
        gives what handling each event with its batch at once gives. */
    method Run(offered: seq<Selected>) returns (quit: Option<QuitReason>)
      requires Valid()
      modifies this
      ensures Valid() && (View(), quit) == Served(old(View()), offered)
    {
      quit := None;
      var i := 0;
      while quit.None? && (batchMessages != [] || i < |offered|)
        invariant Valid() && 0 <= i <= |offered|
        invariant quit.None? ==> Served(View(), offered[i..]) == Served(old(View()), offered)
        invariant quit.Some? ==> (View(), quit) == Served(old(View()), offered)
        decreases |offered| - i, |batchMessages|, quit.None?
      {
        if batchMessages != [] {
          PopDrains(View());
          SameRest(View(), View().(batch := View().batch[1..]).HandlePeer(View().batch[0]), offered[i..]);
          TakeTurn(PeerMessage(batchMessages[0]));
        } else {
          assert offered[i..][1..] == offered[i + 1..];
          match offered[i]
          case Stop(reason) => quit := Some(reason);
          case Offered(ev) =>
            TakeTurn(ev);
            i := i + 1;
        }
      }
    }
  }

  lemma SameRest(c: Core, d: Core, offered: seq<Selected>)
    requires Drain(c) == Drain(d)
    ensures Served(c, offered) == Served(d, offered)
  {
  }
}
