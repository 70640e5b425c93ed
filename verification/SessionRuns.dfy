/** What every run of a session keeps, whatever the HTTP side, the handler and
    the receivers do, and in whatever order. */
module SessionRuns {
  import opened JsonRpc
  import opened EventIds
  import opened Streams
  import opened Session

  /** A handler message that was accepted, and the stream it was put on. */
  datatype Routed = Routed(message: Message, stream: Option<HttpRequestId>)

  /** A worker with the history of its run: the accepted messages in order, the
      channels explicitly closed, and how many were established. */
  datatype Run = Run(worker: Worker, log: seq<Routed>, closed: set<HttpRequestId>, established: nat)
  {
    function Next(ev: SessionEvent): Run
      requires Admissible(ev)
    {
      var (w, r) := worker.Step(ev);
      match ev
      case FromHandler(m, _) =>
        var route := worker.CatchReply(m).ResolveOutbound(m);
        Run(w, if r.Ok? then log + [Routed(m, route)] else log, closed, established)
      case CloseRequestWiseChannel(id) =>
        Run(w, log, if id in worker.txRouter then closed + {id} else closed, established)
      case EstablishRequestWiseChannel => Run(w, log, closed, established + 1)
      case _ => Run(w, log, closed, established)
    }
  }

  /** The service loop never hands a batch to its transport. */
  predicate Admissible(ev: SessionEvent) {
    ev.FromHandler? ==> !ev.message.IsBatch()
  }

  function Exec(channelCapacity: nat, evs: seq<SessionEvent>): Run
    requires forall k :: 0 <= k < |evs| ==> Admissible(evs[k])
  {
    if evs == [] then Run(CreateSession(channelCapacity), [], {}, 0)
    else Exec(channelCapacity, evs[..|evs| - 1]).Next(evs[|evs| - 1])
  }

  /** The messages of a log that went to one stream, in order. */
  function Project(log: seq<Routed>, stream: Option<HttpRequestId>): seq<Message> {
    if log == [] then []
    else
      var last := log[|log| - 1];
      Project(log[..|log| - 1], stream) + if last.stream == stream then [last.message] else []
  }

  lemma ProjectSnoc(log: seq<Routed>, e: Routed, stream: Option<HttpRequestId>)
    ensures Project(log + [e], stream) == Project(log, stream) + if e.stream == stream then [e.message] else []
  {
    assert (log + [e])[..|log|] == log;
  }

  lemma {:induction false} ProjectNone(log: seq<Routed>, stream: Option<HttpRequestId>)
    requires forall k :: 0 <= k < |log| ==> log[k].stream != stream
    ensures Project(log, stream) == []
  {
    if log != [] {
      ProjectNone(log[..|log| - 1], stream);
    }
  }

  // The invariants

  /** Every route leads to a live channel that knows the routed key, or to a
      channel that was explicitly closed. */
  ghost predicate RoutesLead(w: Worker, closed: set<HttpRequestId>) {
    forall key :: key in w.resourceRouter ==>
      var id := w.resourceRouter[key];
      id in closed || (id in w.txRouter && key in w.txRouter[id].resources)
  }

  /** Live channels are the ones established and not yet gone; ids are not reused. */
  ghost predicate IdsFresh(r: Run) {
    && r.worker.nextHttpRequestId == r.established % U64_LIMIT
    && (forall id :: id in r.worker.txRouter ==> id < r.established && id !in r.closed)
    && (forall id :: id in r.closed ==> id < r.established)
    && (forall k :: 0 <= k < |r.log| && r.log[k].stream.Some? ==> r.log[k].stream.value < r.established)
  }

  /** Each live stream has received exactly its share of the accepted messages, in order. */
  ghost predicate StreamsHoldLog(r: Run) {
    && r.worker.common.history == Project(r.log, None)
    && forall id :: id in r.worker.txRouter ==> r.worker.txRouter[id].stream.history == Project(r.log, Some(id))
  }

  ghost predicate StreamsTyped(w: Worker) {
    && w.common.id == None && w.common.capacity == w.channelCapacity
    && forall id :: id in w.txRouter ==>
         w.txRouter[id].stream.id == Some(id) && w.txRouter[id].stream.capacity == w.channelCapacity
  }

  /** No channel holds more than its capacity, which is at least one. */
  ghost predicate Bounded(s: Stream) {
    s.link.capacity == s.capacity && (s.capacity >= 1 ==> |s.link.queue| <= s.capacity)
  }

  ghost predicate QueuesBounded(w: Worker) {
    Bounded(w.common) && forall id :: id in w.txRouter ==> Bounded(w.txRouter[id].stream)
  }

  lemma SendBounded(s: Stream, m: Message, wake: Wake)
    requires Bounded(s)
    ensures Bounded(s.Send(m, wake))
  {
    if s.capacity >= 1 {
      AcceptBounded(s.link, SessionMessage(EventId(s.id, |s.history|), m), wake);
    }
  }

  lemma ResumeBounded(s: Stream, index: nat)
    ensures Bounded(s.Resume(index, s.capacity).0)
  {
    ResumeExactly(s, index, s.capacity);
    ReplayIsHistory(s, index);
  }

  ghost predicate Inv(r: Run) {
    && RoutesLead(r.worker, r.closed) && IdsFresh(r) && StreamsHoldLog(r)
    && StreamsTyped(r.worker) && QueuesBounded(r.worker)
  }

  /** Rerouting: resources change hands and channels may go, but no stream changes. */
  ghost predicate SameStreams(w: Worker, w': Worker) {
    && w'.common == w.common && w'.channelCapacity == w.channelCapacity
    && w'.nextHttpRequestId == w.nextHttpRequestId
    && forall id :: id in w'.txRouter ==> id in w.txRouter && w'.txRouter[id].stream == w.txRouter[id].stream
  }

  lemma UnregisterKeeps(w: Worker, key: ResourceKey, closed: set<HttpRequestId>)
    ensures SameStreams(w, w.UnregisterResource(key))
    ensures RoutesLead(w, closed) ==> RoutesLead(w.UnregisterResource(key), closed)
    ensures key !in w.UnregisterResource(key).resourceRouter
  {
  }

  lemma RegisterKeeps(w: Worker, key: ResourceKey, id: HttpRequestId, closed: set<HttpRequestId>)
    ensures SameStreams(w, w.RegisterResource(key, id))
    ensures RoutesLead(w, closed) ==> RoutesLead(w.RegisterResource(key, id), closed)
  {
  }

  lemma RegisterRequestKeeps(
    w: Worker, requestId: RequestId, request: RequestBody, id: HttpRequestId, closed: set<HttpRequestId>)
    ensures SameStreams(w, w.RegisterRequest(requestId, request, id))
    ensures RoutesLead(w, closed) ==> RoutesLead(w.RegisterRequest(requestId, request, id), closed)
  {
    var w' := w.RegisterResource(McpRequestId(requestId), id);
    RegisterKeeps(w, McpRequestId(requestId), id, closed);
    if request.progressToken.Some? {
      RegisterKeeps(w', ProgressToken(request.progressToken.value), id, closed);
    }
  }

  lemma CancellationKeeps(w: Worker, notification: NotificationBody, closed: set<HttpRequestId>)
    ensures SameStreams(w, w.CatchCancellation(notification))
    ensures RoutesLead(w, closed) ==> RoutesLead(w.CatchCancellation(notification), closed)
  {
    if notification.Cancelled? {
      UnregisterKeeps(w, McpRequestId(notification.requestId), closed);
    }
  }

  lemma {:induction false} BatchKeeps(
    w: Worker, items: seq<BatchRequestItem>, http: Option<HttpRequestId>, closed: set<HttpRequestId>)
    ensures SameStreams(w, w.CatchBatch(items, http))
    ensures RoutesLead(w, closed) ==> RoutesLead(w.CatchBatch(items, http), closed)
    decreases |items|
  {
    if items != [] {
      var n := |items| - 1;
      BatchKeeps(w, items[..n], http, closed);
      var w' := w.CatchBatch(items[..n], http);
      match items[n]
      case ItemRequest(id, request) =>
        if http.Some? {
          RegisterRequestKeeps(w', id, request, http.value, closed);
        }
      case ItemNotification(notification) =>
        CancellationKeeps(w', notification, closed);
    }
  }

  lemma ClientMessageKeeps(w: Worker, m: Message, http: Option<HttpRequestId>, closed: set<HttpRequestId>)
    ensures SameStreams(w, w.CatchClientMessage(m, http))
    ensures RoutesLead(w, closed) ==> RoutesLead(w.CatchClientMessage(m, http), closed)
  {
    match m
    case Request(id, request) =>
      if http.Some? {
        RegisterRequestKeeps(w, id, request, http.value, closed);
      }
    case Notification(notification) => CancellationKeeps(w, notification, closed);
    case BatchRequest(items) => BatchKeeps(w, items, http, closed);
    case _ =>
  }

  lemma CatchReplyKeeps(r: Run, m: Message)
    requires Inv(r)
    ensures Inv(r.(worker := r.worker.CatchReply(m)))
  {
    if m.IsReply() {
      UnregisterKeeps(r.worker, McpRequestId(m.id), r.closed);
    }
  }

  lemma SendHoldsLog(r: Run, m: Message, wake: Wake)
    requires StreamsHoldLog(r) && !m.IsBatch()
    ensures
      var (w, result) := r.worker.HandleServerMessage(m, wake);
      var entry := Routed(m, r.worker.ResolveOutbound(m));
      StreamsHoldLog(r.(worker := w, log := if result.Ok? then r.log + [entry] else r.log))
  {
    var entry := Routed(m, r.worker.ResolveOutbound(m));
    forall stream { ProjectSnoc(r.log, entry, stream); }
  }

  lemma SendTyped(w: Worker, m: Message, wake: Wake)
    requires StreamsTyped(w) && QueuesBounded(w) && !m.IsBatch()
    ensures StreamsTyped(w.HandleServerMessage(m, wake).0) && QueuesBounded(w.HandleServerMessage(m, wake).0)
  {
    match w.ResolveOutbound(m)
    case None => SendBounded(w.common, m, wake);
    case Some(id) =>
      if id in w.txRouter {
        SendBounded(w.txRouter[id].stream, m, wake);
      }
  }

  lemma SendKeeps(r: Run, m: Message, wake: Wake)
    requires Inv(r) && !m.IsBatch()
    ensures
      var (w, result) := r.worker.HandleServerMessage(m, wake);
      var entry := Routed(m, r.worker.ResolveOutbound(m));
      Inv(r.(worker := w, log := if result.Ok? then r.log + [entry] else r.log))
  {
    SendHoldsLog(r, m, wake);
    SendTyped(r.worker, m, wake);
  }

  lemma FromHandlerKeeps(r: Run, m: Message, wake: Wake)
    requires Inv(r) && !m.IsBatch()
    ensures Inv(r.Next(FromHandler(m, wake)))
  {
    CatchReplyKeeps(r, m);
    SendKeeps(r.(worker := r.worker.CatchReply(m)), m, wake);
  }

  lemma EstablishKeeps(r: Run)
    requires Inv(r) && r.established < U64_LIMIT
    ensures Inv(r.Next(EstablishRequestWiseChannel))
  {
    ProjectNone(r.log, Some(r.established));
  }

  lemma CloseKeeps(r: Run, id: HttpRequestId)
    requires Inv(r)
    ensures Inv(r.Next(CloseRequestWiseChannel(id)))
  {
  }

  lemma ResumeKeeps(r: Run, e: EventId)
    requires Inv(r)
    ensures Inv(r.Next(ResumeStream(e)))
  {
    var c := r.worker.channelCapacity;
    match e.httpRequestId
    case None =>
      ResumeExactly(r.worker.common, e.index, c);
      ResumeBounded(r.worker.common, e.index);
    case Some(id) =>
      if id in r.worker.txRouter {
        ResumeExactly(r.worker.txRouter[id].stream, e.index, c);
        ResumeBounded(r.worker.txRouter[id].stream, e.index);
      }
  }

  lemma ReceiverKeeps(r: Run, stream: Option<HttpRequestId>, act: Wake)
    requires Inv(r)
    ensures Inv(r.Next(Receiver(stream, act)))
  {
  }

  lemma NextKeeps(r: Run, ev: SessionEvent)
    requires Inv(r) && Admissible(ev) && r.Next(ev).established <= U64_LIMIT
    ensures Inv(r.Next(ev))
  {
    match ev
    case FromHandler(m, wake) => FromHandlerKeeps(r, m, wake);
    case ClientMessage(m, http) => ClientMessageKeeps(r.worker, m, http, r.closed);
    case EstablishRequestWiseChannel => EstablishKeeps(r);
    case CloseRequestWiseChannel(id) => CloseKeeps(r, id);
    case ResumeStream(e) => ResumeKeeps(r, e);
    case Receiver(stream, act) => ReceiverKeeps(r, stream, act);
  }

  lemma {:induction false} EstablishedGrows(channelCapacity: nat, evs: seq<SessionEvent>, k: nat)
    requires forall i :: 0 <= i < |evs| ==> Admissible(evs[i])
    requires k <= |evs|
    ensures Exec(channelCapacity, evs[..k]).established <= Exec(channelCapacity, evs).established
    decreases |evs|
  {
    if k == |evs| {
      assert evs[..k] == evs;
    } else {
      EstablishedGrows(channelCapacity, evs[..|evs| - 1], k);
      assert evs[..|evs| - 1][..k] == evs[..k];
    }
  }

  /** The invariants hold after every run that establishes at most 2^64 channels. */
  lemma {:induction false} ExecKeeps(channelCapacity: nat, evs: seq<SessionEvent>)
    requires forall k :: 0 <= k < |evs| ==> Admissible(evs[k])
    requires Exec(channelCapacity, evs).established <= U64_LIMIT
    ensures Inv(Exec(channelCapacity, evs))
  {
    if evs != [] {
      var n := |evs| - 1;
      EstablishedGrows(channelCapacity, evs, n);
      ExecKeeps(channelCapacity, evs[..n]);
      NextKeeps(Exec(channelCapacity, evs[..n]), evs[n]);
    }
  }
}
