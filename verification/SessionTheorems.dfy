/** The promises of a streamable-HTTP session, over all its runs, and where the
    code falls short of its own documentation. */
module SessionTheorems {
  import opened JsonRpc
  import opened EventIds
  import opened Streams
  import opened Session
  import opened SessionRuns

  // Which stream a message lands on

  /** Every accepted message has its own place in the history of its stream. */
  lemma {:induction false} ProjectPosition(log: seq<Routed>, k: nat)
    requires k < |log|
    ensures
      var stream := log[k].stream;
      var index := |Project(log[..k], stream)|;
      index < |Project(log, stream)| && Project(log, stream)[index] == log[k].message
    decreases |log|
  {
    var init := log[..|log| - 1];
    if k < |init| {
      ProjectPosition(init, k);
      assert init[..k] == log[..k];
    }
  }

  /** Every place in the history of a stream is taken by exactly one accepted message. */
  lemma {:induction false} ProjectOrigin(log: seq<Routed>, stream: Option<HttpRequestId>, index: nat) returns (k: nat)
    requires index < |Project(log, stream)|
    ensures k < |log| && log[k].stream == stream && |Project(log[..k], stream)| == index
    ensures forall j :: 0 <= j < |log| && log[j].stream == stream && |Project(log[..j], stream)| == index ==> j == k
  {
    var n := |log| - 1;
    var init := log[..n];
    if index < |Project(init, stream)| {
      k := ProjectOrigin(init, stream, index);
      assert init[..k] == log[..k];
    } else {
      k := n;
    }
    forall j | 0 <= j < |log| && log[j].stream == stream && |Project(log[..j], stream)| == index
      ensures j == k
    {
      if j < n {
        ProjectPosition(init, j);
        assert init[..j] == log[..j];
      }
    }
  }

  /** The accepted messages are partitioned among the streams: each live stream's
      history is its share of the log, in handler order. */
  lemma Partitioned(channelCapacity: nat, evs: seq<SessionEvent>)
    requires forall k :: 0 <= k < |evs| ==> Admissible(evs[k])
    requires Exec(channelCapacity, evs).established <= U64_LIMIT
    ensures
      var r := Exec(channelCapacity, evs);
      && r.worker.common.history == Project(r.log, None)
      && forall id :: id in r.worker.txRouter ==> r.worker.txRouter[id].stream.history == Project(r.log, Some(id))
  {
    ExecKeeps(channelCapacity, evs);
  }

  /** The stream an accepted message was put on, while it lives. */
  ghost predicate Lives(w: Worker, stream: Option<HttpRequestId>) {
    stream.Some? ==> stream.value in w.txRouter
  }

  ghost function StreamOf(w: Worker, stream: Option<HttpRequestId>): Stream
    requires Lives(w, stream)
  {
    if stream.None? then w.common else w.txRouter[stream.value].stream
  }

  /** Where the k-th accepted message stands in its stream. */
  function PlaceOf(log: seq<Routed>, k: nat): nat
    requires k < |log|
  {
    |Project(log[..k], log[k].stream)|
  }

  /** Over every run each accepted message stands in its stream, while that lives,
      under the id whose index counts the earlier messages of the stream. */
  lemma AcceptedHasPlace(channelCapacity: nat, evs: seq<SessionEvent>, k: nat)
    requires forall i :: 0 <= i < |evs| ==> Admissible(evs[i])
    requires Exec(channelCapacity, evs).established <= U64_LIMIT
    requires k < |Exec(channelCapacity, evs).log|
    requires Lives(Exec(channelCapacity, evs).worker, Exec(channelCapacity, evs).log[k].stream)
    ensures
      var r := Exec(channelCapacity, evs);
      var numbered, index := StreamOf(r.worker, r.log[k].stream).Numbered(), PlaceOf(r.log, k);
      index < |numbered| && numbered[index] == SessionMessage(EventId(r.log[k].stream, index), r.log[k].message)
  {
    ExecKeeps(channelCapacity, evs);
    ProjectPosition(Exec(channelCapacity, evs).log, k);
  }

  /** And every message of a live stream was accepted for it, exactly once. */
  lemma PlaceHasOrigin(channelCapacity: nat, evs: seq<SessionEvent>, stream: Option<HttpRequestId>, index: nat)
    returns (k: nat)
    requires forall i :: 0 <= i < |evs| ==> Admissible(evs[i])
    requires Exec(channelCapacity, evs).established <= U64_LIMIT
    requires Lives(Exec(channelCapacity, evs).worker, stream)
    requires index < |StreamOf(Exec(channelCapacity, evs).worker, stream).Numbered()|
    ensures
      var r := Exec(channelCapacity, evs);
      var m := StreamOf(r.worker, stream).Numbered()[index];
      && k < |r.log| && r.log[k] == Routed(m.message, stream) && PlaceOf(r.log, k) == index
      && m.eventId == EventId(stream, index)
      && forall j :: 0 <= j < |r.log| && r.log[j].stream == stream && PlaceOf(r.log, j) == index ==> j == k
  {
    ExecKeeps(channelCapacity, evs);
    var log := Exec(channelCapacity, evs).log;
    k := ProjectOrigin(log, stream, index);
    ProjectPosition(log, k);
  }

  /** What one event does to a stream. */
  function StreamAfter(w: Worker, ev: SessionEvent, stream: Option<HttpRequestId>, s: Stream): Stream
    requires Admissible(ev)
  {
    match ev
    case FromHandler(m, wake) => if w.CatchReply(m).ResolveOutbound(m) == stream then s.Send(m, wake) else s
    case ResumeStream(e) => if e.httpRequestId == stream then s.Resume(e.index, s.capacity).0 else s
    case Receiver(acting, act) => if acting == stream then s.(link := s.link.Receive(act)) else s
    case _ => s
  }

  /** Over every run a stream, while it lives, only ever gets the messages routed to
      it, resumed under its own ids and read by its own receiver. */
  lemma StreamEvolves(r: Run, ev: SessionEvent, stream: Option<HttpRequestId>)
    requires Inv(r) && Admissible(ev) && r.Next(ev).established <= U64_LIMIT && Lives(r.worker, stream)
    ensures Lives(r.Next(ev).worker, stream) ==>
      StreamOf(r.Next(ev).worker, stream) == StreamAfter(r.worker, ev, stream, StreamOf(r.worker, stream))
  {
    match ev
    case FromHandler(m, wake) =>
      if m.IsReply() {
        UnregisterKeeps(r.worker, McpRequestId(m.id), r.closed);
      }
    case ClientMessage(m, http) => ClientMessageKeeps(r.worker, m, http, r.closed);
    case _ =>
  }

  /** And one that is gone stays gone. */
  lemma GoneForGood(r: Run, ev: SessionEvent, id: HttpRequestId)
    requires Inv(r) && Admissible(ev) && r.Next(ev).established <= U64_LIMIT
    requires id < r.established && id !in r.worker.txRouter
    ensures id !in r.Next(ev).worker.txRouter
  {
    match ev
    case FromHandler(m, wake) =>
      if m.IsReply() {
        UnregisterKeeps(r.worker, McpRequestId(m.id), r.closed);
      }
    case ClientMessage(m, http) => ClientMessageKeeps(r.worker, m, http, r.closed);
    case _ =>
  }

  function Messages(log: seq<Routed>): seq<Message> {
    seq(|log|, k requires 0 <= k < |log| => log[k].message)
  }

  /** What the handler sent, in order. */
  function FromHandlers(evs: seq<SessionEvent>): seq<Message> {
    if evs == [] then []
    else
      var last := evs[|evs| - 1];
      FromHandlers(evs[..|evs| - 1]) + if last.FromHandler? then [last.message] else []
  }

  /** A handler message is refused only on account of an explicitly closed channel. */
  lemma RefusedOnlyAfterClose(r: Run, m: Message, wake: Wake)
    requires Inv(r) && !m.IsBatch()
    ensures
      var result := r.worker.Step(FromHandler(m, wake)).1;
      result.Ok? || (exists id :: id in r.closed && result == Err(ChannelClosed(Some(id))))
  {
    if m.IsReply() {
      UnregisterKeeps(r.worker, McpRequestId(m.id), r.closed);
    }
  }

  /** Without explicit closes no handler message is ever refused: all of them, in
      order, are on some stream. */
  lemma {:induction false} Lossless(channelCapacity: nat, evs: seq<SessionEvent>)
    requires forall k :: 0 <= k < |evs| ==> Admissible(evs[k]) && !evs[k].CloseRequestWiseChannel?
    requires Exec(channelCapacity, evs).established <= U64_LIMIT
    ensures Exec(channelCapacity, evs).closed == {}
    ensures Messages(Exec(channelCapacity, evs).log) == FromHandlers(evs)
  {
    if evs != [] {
      var n := |evs| - 1;
      EstablishedGrows(channelCapacity, evs, n);
      Lossless(channelCapacity, evs[..n]);
      ExecKeeps(channelCapacity, evs[..n]);
      var r := Exec(channelCapacity, evs[..n]);
      if evs[n].FromHandler? {
        RefusedOnlyAfterClose(r, evs[n].message, evs[n].wake);
      }
    }
  }

  /** Replies always go to the common stream: their request is forgotten before
      the stream is looked up. The documentation of
      `establish_request_wise_channel` says otherwise. */
  lemma RepliesAreCommon(w: Worker, m: Message, wake: Wake)
    requires m.IsReply()
    ensures
      var (w', r) := w.Step(FromHandler(m, wake));
      && r == Ok(())
      && w'.common == w.common.Send(m, wake)
      && forall id :: id in w'.txRouter ==> id in w.txRouter && w'.txRouter[id].stream == w.txRouter[id].stream
  {
    UnregisterKeeps(w, McpRequestId(m.id), {});
  }

  predicate AboutRequest(m: Message) {
    m.Notification? && (m.notification.Progress? || m.notification.Cancelled?)
  }

  /** So do requests to the client and notifications that concern no request. */
  lemma OthersAreCommon(w: Worker, m: Message, wake: Wake)
    requires !m.IsReply() && !m.IsBatch() && !AboutRequest(m)
    ensures w.Step(FromHandler(m, wake)) == (w.(common := w.common.Send(m, wake)), Ok(()))
  {
  }

  /** The answer to a resume, and what it does: refused for a stream that is gone, for
      an index beyond what was sent, and otherwise only its own stream changes. */
  lemma ResumeAnswers(w: Worker, e: EventId)
    ensures
      var (w', r) := w.Step(ResumeStream(e));
      if !Lives(w, e.httpRequestId) then w' == w && r == Err(ChannelClosed(e.httpRequestId))
      else
        var s := StreamOf(w, e.httpRequestId);
        && (r == Err(InvalidEventId) <==> s.history != [] && e.index > |s.history|)
        && (r == Ok(()) <==> s.history == [] || e.index <= |s.history|)
        && Lives(w', e.httpRequestId)
        && (r.Ok? ==> StreamOf(w', e.httpRequestId).link == Link(w.channelCapacity, s.ReplayFrom(e.index), true))
        && forall other :: other != e.httpRequestId ==>
             (Lives(w', other) <==> Lives(w, other)) && (Lives(w, other) ==> StreamOf(w', other) == StreamOf(w, other))
  {
    if Lives(w, e.httpRequestId) {
      ResumeExactly(StreamOf(w, e.httpRequestId), e.index, w.channelCapacity);
    }
  }

  /** Until somebody listens to the common stream its channel is closed, so nothing
      waits there; what is sent is only cached. */
  lemma {:induction false} CommonUnheard(channelCapacity: nat, evs: seq<SessionEvent>)
    requires forall i :: 0 <= i < |evs| ==> Admissible(evs[i])
    requires forall i :: 0 <= i < |evs| && evs[i].ResumeStream? ==> evs[i].lastEventId.httpRequestId.Some?
    ensures Exec(channelCapacity, evs).worker.common.link == Link(channelCapacity, [], false)
  {
    if evs != [] {
      var n := |evs| - 1;
      CommonUnheard(channelCapacity, evs[..n]);
      NextUnheard(Exec(channelCapacity, evs[..n]), evs[n]);
    }
  }

  lemma NextUnheard(r: Run, ev: SessionEvent)
    requires Admissible(ev) && (ev.ResumeStream? ==> ev.lastEventId.httpRequestId.Some?)
    requires !r.worker.common.link.open && r.worker.common.link.queue == []
    ensures r.Next(ev).worker.common.link == r.worker.common.link
  {
    match ev
    case ClientMessage(m, http) => ClientMessageKeeps(r.worker, m, http, r.closed);
    case FromHandler(m, wake) =>
      if m.IsReply() {
        UnregisterKeeps(r.worker, McpRequestId(m.id), r.closed);
      }
    case _ =>
  }

  lemma RouteIsAboutRequest(w: Worker, m: Message)
    requires !m.IsBatch()
    ensures w.CatchReply(m).ResolveOutbound(m).Some? ==> AboutRequest(m)
  {
    if m.IsReply() {
      UnregisterKeeps(w, McpRequestId(m.id), {});
    }
  }

  /** So the stream of an HTTP request never carries anything but progress and
      cancellation notifications. */
  ghost predicate CarriesNotifications(log: seq<Routed>) {
    forall k :: 0 <= k < |log| && log[k].stream.Some? ==> AboutRequest(log[k].message)
  }

  lemma NextCarriesNotifications(r: Run, ev: SessionEvent)
    requires Admissible(ev) && CarriesNotifications(r.log)
    ensures CarriesNotifications(r.Next(ev).log)
  {
    if ev.FromHandler? {
      RouteIsAboutRequest(r.worker, ev.message);
      var route := r.worker.CatchReply(ev.message).ResolveOutbound(ev.message);
      assert CarriesNotifications(r.log + [Routed(ev.message, route)]);
    }
  }

  lemma {:induction false} RequestWiseCarriesNotifications(channelCapacity: nat, evs: seq<SessionEvent>)
    requires forall k :: 0 <= k < |evs| ==> Admissible(evs[k])
    ensures CarriesNotifications(Exec(channelCapacity, evs).log)
  {
    if evs != [] {
      var n := |evs| - 1;
      RequestWiseCarriesNotifications(channelCapacity, evs[..n]);
      NextCarriesNotifications(Exec(channelCapacity, evs[..n]), evs[n]);
    }
  }

  // When the two routers are inverses

  /** A key is routed to a channel exactly when the channel owns it. */
  ghost predicate Exact(w: Worker) {
    forall key, id :: (id in w.txRouter && key in w.txRouter[id].resources)
                 <==> (key in w.resourceRouter && w.resourceRouter[key] == id)
  }

  lemma UnregisterExact(w: Worker, key: ResourceKey)
    requires Exact(w)
    ensures Exact(w.UnregisterResource(key))
  {
  }

  /** Registering a key keeps the routers inverse exactly when the key is not
      taken away from another channel. */
  lemma RegisterExact(w: Worker, key: ResourceKey, id: HttpRequestId)
    requires Exact(w) && id in w.txRouter
    ensures Exact(w.RegisterResource(key, id)) <==> (key in w.resourceRouter ==> w.resourceRouter[key] == id)
  {
    var w' := w.RegisterResource(key, id);
    if key in w.resourceRouter && w.resourceRouter[key] != id {
      var other := w.resourceRouter[key];
      assert key in w'.txRouter[other].resources;
      assert w'.resourceRouter[key] != other;
    }
  }

  /** In an exact state a channel is dropped exactly when its last key goes. */
  lemma DroppedWithLastKey(w: Worker, key: ResourceKey, id: HttpRequestId)
    requires Exact(w) && id in w.txRouter
    ensures id !in w.UnregisterResource(key).txRouter <==> w.txRouter[id].resources == {key}
  {
    if w.txRouter[id].resources == {key} {
      assert key in w.txRouter[id].resources;
    }
  }

  /** The keys one client message registers. */
  function KeysOf(requestId: RequestId, request: RequestBody): set<ResourceKey> {
    {McpRequestId(requestId)} + if request.progressToken.Some? then {ProgressToken(request.progressToken.value)} else {}
  }

  function ItemKeys(item: BatchRequestItem): set<ResourceKey> {
    if item.ItemRequest? then KeysOf(item.id, item.request) else {}
  }

  /** No key of the message is routed to another HTTP request. */
  ghost predicate NoRebind(w: Worker, ev: SessionEvent) {
    ev.ClientMessage? && ev.httpRequestId.Some? ==>
      match ev.message
      case Request(requestId, request) => Unbound(w, KeysOf(requestId, request), ev.httpRequestId.value)
      case BatchRequest(items) => forall k :: 0 <= k < |items| ==> Unbound(w, ItemKeys(items[k]), ev.httpRequestId.value)
      case _ => true
  }

  ghost predicate Unbound(w: Worker, keys: set<ResourceKey>, id: HttpRequestId) {
    forall key :: key in keys && key in w.resourceRouter ==> w.resourceRouter[key] == id
  }

  lemma RegisterRequestExact(w: Worker, requestId: RequestId, request: RequestBody, id: HttpRequestId)
    requires Exact(w) && Unbound(w, KeysOf(requestId, request), id)
    ensures Exact(w.RegisterRequest(requestId, request, id))
    ensures forall keys :: Unbound(w, keys, id) ==> Unbound(w.RegisterRequest(requestId, request, id), keys, id)
  {
    if id in w.txRouter {
      var key := McpRequestId(requestId);
      RegisterExact(w, key, id);
      if request.progressToken.Some? {
        RegisterExact(w.RegisterResource(key, id), ProgressToken(request.progressToken.value), id);
      }
    }
  }

  lemma CatchItemExact(w: Worker, item: BatchRequestItem, http: Option<HttpRequestId>)
    requires Exact(w) && (http.Some? ==> Unbound(w, ItemKeys(item), http.value))
    ensures Exact(w.CatchBatchItem(item, http))
    ensures http.Some? ==> forall keys :: Unbound(w, keys, http.value) ==> Unbound(w.CatchBatchItem(item, http), keys, http.value)
  {
    match item
    case ItemRequest(requestId, request) =>
      if http.Some? {
        RegisterRequestExact(w, requestId, request, http.value);
      }
    case ItemNotification(notification) =>
      if notification.Cancelled? {
        UnregisterExact(w, McpRequestId(notification.requestId));
      }
  }

  lemma {:induction false} CatchBatchExact(w: Worker, items: seq<BatchRequestItem>, http: Option<HttpRequestId>)
    requires Exact(w)
    requires http.Some? ==> forall k :: 0 <= k < |items| ==> Unbound(w, ItemKeys(items[k]), http.value)
    ensures Exact(w.CatchBatch(items, http))
    ensures http.Some? ==> forall keys :: Unbound(w, keys, http.value) ==> Unbound(w.CatchBatch(items, http), keys, http.value)
    decreases |items|
  {
    if items != [] {
      var n := |items| - 1;
      CatchBatchExact(w, items[..n], http);
      CatchItemExact(w.CatchBatch(items[..n], http), items[n], http);
    }
  }

  lemma ClientMessageExact(w: Worker, m: Message, http: Option<HttpRequestId>)
    requires Exact(w) && NoRebind(w, ClientMessage(m, http))
    ensures Exact(w.CatchClientMessage(m, http))
  {
    match m
    case Request(requestId, request) => CatchItemExact(w, ItemRequest(requestId, request), http);
    case Notification(notification) => CatchItemExact(w, ItemNotification(notification), http);
    case BatchRequest(items) => CatchBatchExact(w, items, http);
    case _ =>
  }

  /** What happens to the streams leaves the routers alone. */
  lemma StreamStepExact(w: Worker, ev: SessionEvent)
    requires Exact(w) && (ev.ResumeStream? || ev.Receiver?)
    ensures Exact(w.Step(ev).0)
  {
  }

  lemma SendExact(w: Worker, m: Message, wake: Wake)
    requires Exact(w) && !m.IsBatch()
    ensures Exact(w.HandleServerMessage(m, wake).0)
  {
  }

  lemma NextExact(r: Run, ev: SessionEvent)
    requires Inv(r) && Admissible(ev) && r.Next(ev).established <= U64_LIMIT
    requires Exact(r.worker) && NoRebind(r.worker, ev) && !ev.CloseRequestWiseChannel?
    ensures Exact(r.Next(ev).worker)
  {
    match ev
    case FromHandler(m, wake) =>
      if m.IsReply() {
        UnregisterExact(r.worker, McpRequestId(m.id));
      }
      SendExact(r.worker.CatchReply(m), m, wake);
    case ClientMessage(m, http) => ClientMessageExact(r.worker, m, http);
    case EstablishRequestWiseChannel =>
      assert r.worker.nextHttpRequestId !in r.worker.txRouter;
    case _ => StreamStepExact(r.worker, ev);
  }

  /** While no key is taken away from another request and no channel is closed
      explicitly, the two routers are exact inverses. */
  lemma {:induction false} RoutersExact(channelCapacity: nat, evs: seq<SessionEvent>)
    requires forall k :: 0 <= k < |evs| ==> Admissible(evs[k]) && !evs[k].CloseRequestWiseChannel?
    requires forall k :: 0 <= k < |evs| ==> NoRebind(Exec(channelCapacity, evs[..k]).worker, evs[k])
    requires Exec(channelCapacity, evs).established <= U64_LIMIT
    ensures Exact(Exec(channelCapacity, evs).worker)
  {
    if evs != [] {
      var n := |evs| - 1;
      var init := evs[..n];
      assert forall k :: 0 <= k < n ==> init[..k] == evs[..k];
      EstablishedGrows(channelCapacity, evs, n);
      ExecKeeps(channelCapacity, init);
      RoutersExact(channelCapacity, init);
      NextExact(Exec(channelCapacity, init), evs[n]);
    }
  }

  /** The number of keys owned by the channels `ids`. */
  ghost function Owned(w: Worker, ids: set<HttpRequestId>): nat
    requires ids <= w.txRouter.Keys
  {
    if ids == {} then 0
    else
      var id :| id in ids;
      |w.txRouter[id].resources| + Owned(w, ids - {id})
  }

  ghost function RoutedTo(w: Worker, ids: set<HttpRequestId>): set<ResourceKey> {
    set key | key in w.resourceRouter && w.resourceRouter[key] in ids
  }

  lemma RoutedToSplits(w: Worker, ids: set<HttpRequestId>, id: HttpRequestId)
    requires Exact(w) && id in ids && ids <= w.txRouter.Keys
    ensures |RoutedTo(w, ids)| == |w.txRouter[id].resources| + |RoutedTo(w, ids - {id})|
  {
    var own, rest := w.txRouter[id].resources, RoutedTo(w, ids - {id});
    assert RoutedTo(w, ids) == own + rest;
    assert own !! rest;
  }

  lemma {:induction false} OwnedIsRouted(w: Worker, ids: set<HttpRequestId>)
    requires Exact(w) && ids <= w.txRouter.Keys
    ensures Owned(w, ids) == |RoutedTo(w, ids)|
  {
    if ids == {} {
      assert RoutedTo(w, ids) == {};
    } else {
      var id :| id in ids && Owned(w, ids) == |w.txRouter[id].resources| + Owned(w, ids - {id});
      OwnedIsRouted(w, ids - {id});
      RoutedToSplits(w, ids, id);
    }
  }

  /** In an exact state the channels' resources cover the routes, each once, */
  lemma OwnedAddUp(w: Worker)
    requires Exact(w)
    ensures Owned(w, w.txRouter.Keys) == |w.resourceRouter|
  {
    OwnedIsRouted(w, w.txRouter.Keys);
    forall key | key in w.resourceRouter ensures w.resourceRouter[key] in w.txRouter {
      ExactLeads(w, key);
    }
    assert RoutedTo(w, w.txRouter.Keys) == w.resourceRouter.Keys;
  }

  lemma ExactLeads(w: Worker, key: ResourceKey)
    requires Exact(w) && key in w.resourceRouter
    ensures w.resourceRouter[key] in w.txRouter && key in w.txRouter[w.resourceRouter[key]].resources
  {
  }

  /** and no resource has two channels. */
  lemma OwnedDisjoint(w: Worker, i: HttpRequestId, j: HttpRequestId)
    requires Exact(w) && i in w.txRouter && j in w.txRouter && i != j
    ensures w.txRouter[i].resources !! w.txRouter[j].resources
  {
    forall key | key in w.txRouter[i].resources ensures key !in w.txRouter[j].resources {
      assert w.resourceRouter[key] == i;
    }
  }
}
