/** How long the channel of an HTTP request lives, and what reaches it meanwhile,
    told by what clients posted and what was completed. */
module ChannelLife {
  import opened JsonRpc
  import EventIds
  import opened Streams
  import opened Session
  import opened SessionRuns
  import opened SessionTheorems
  import Sequences

  // What events do to the routers

  /** A request posted under an HTTP request, or a request replied to or cancelled. */
  datatype Act =
    | Registers(requestId: RequestId, request: RequestBody, http: HttpRequestId)
    | Forgets(requestId: RequestId)
  {
    predicate Posts(id: HttpRequestId, key: ResourceKey) {
      Registers? && http == id && key in KeysOf(requestId, request)
    }

    predicate Drops(key: ResourceKey) {
      Forgets? && key == McpRequestId(requestId)
    }
  }

  function ItemActs(item: BatchRequestItem, http: Option<HttpRequestId>): seq<Act> {
    match item
    case ItemRequest(id, request) => if http.Some? then [Registers(id, request, http.value)] else []
    case ItemNotification(Cancelled(id, _)) => [Forgets(id)]
    case ItemNotification(_) => []
  }

  function BatchActs(items: seq<BatchRequestItem>, http: Option<HttpRequestId>): seq<Act> {
    if items == [] then [] else BatchActs(items[..|items| - 1], http) + ItemActs(items[|items| - 1], http)
  }

  function Acts(ev: SessionEvent): seq<Act> {
    match ev
    case FromHandler(m, _) => if m.IsReply() then [Forgets(m.id)] else []
    case ClientMessage(Request(id, request), http) => ItemActs(ItemRequest(id, request), http)
    case ClientMessage(Notification(notification), http) => ItemActs(ItemNotification(notification), http)
    case ClientMessage(BatchRequest(items), http) => BatchActs(items, http)
    case _ => []
  }

  function ActsOf(evs: seq<SessionEvent>): seq<Act> {
    if evs == [] then [] else ActsOf(evs[..|evs| - 1]) + Acts(evs[|evs| - 1])
  }

  function Do(w: Worker, a: Act): Worker {
    match a
    case Registers(id, request, http) => w.RegisterRequest(id, request, http)
    case Forgets(id) => w.UnregisterResource(McpRequestId(id))
  }

  function Perform(w: Worker, acts: seq<Act>): Worker {
    if acts == [] then w else Do(Perform(w, acts[..|acts| - 1]), acts[|acts| - 1])
  }

  lemma PerformSnoc(w: Worker, acts: seq<Act>, a: Act)
    ensures Perform(w, acts + [a]) == Do(Perform(w, acts), a)
  {
    assert (acts + [a])[..|acts|] == acts;
  }

  lemma ItemDoes(w: Worker, acts: seq<Act>, item: BatchRequestItem, http: Option<HttpRequestId>)
    ensures Perform(w, acts + ItemActs(item, http)) == Perform(w, acts).CatchBatchItem(item, http)
  {
    if ItemActs(item, http) == [] {
      assert acts + [] == acts;
    } else {
      PerformSnoc(w, acts, ItemActs(item, http)[0]);
    }
  }

  lemma {:induction false} BatchDoes(w: Worker, items: seq<BatchRequestItem>, http: Option<HttpRequestId>)
    ensures Perform(w, BatchActs(items, http)) == w.CatchBatch(items, http)
    decreases |items|
  {
    if items != [] {
      BatchDoes(w, items[..|items| - 1], http);
      ItemDoes(w, BatchActs(items[..|items| - 1], http), items[|items| - 1], http);
    }
  }

  lemma MessageDoes(w: Worker, m: Message, http: Option<HttpRequestId>)
    ensures Perform(w, Acts(ClientMessage(m, http))) == w.CatchClientMessage(m, http)
  {
    match m
    case Request(id, request) => OneItemDoes(w, ItemRequest(id, request), http);
    case Notification(notification) => OneItemDoes(w, ItemNotification(notification), http);
    case BatchRequest(items) => BatchDoes(w, items, http);
    case _ =>
  }

  lemma OneItemDoes(w: Worker, item: BatchRequestItem, http: Option<HttpRequestId>)
    ensures Perform(w, ItemActs(item, http)) == w.CatchBatchItem(item, http)
  {
    ItemDoes(w, [], item, http);
    assert [] + ItemActs(item, http) == ItemActs(item, http);
  }

  /** The resources of a live channel. */
  function Channel(w: Worker, id: HttpRequestId): Option<set<ResourceKey>> {
    if id in w.txRouter then Some(w.txRouter[id].resources) else None
  }

  /** The same routes, and the same channel at `id` up to its stream. */
  ghost predicate SameAt(w: Worker, w': Worker, id: HttpRequestId) {
    w'.resourceRouter == w.resourceRouter && Channel(w', id) == Channel(w, id)
  }

  lemma SendSame(w: Worker, m: Message, wake: Wake, id: HttpRequestId)
    requires !m.IsBatch()
    ensures SameAt(w, w.HandleServerMessage(m, wake).0, id)
  {
  }

  lemma ReceiverSame(w: Worker, ev: SessionEvent, id: HttpRequestId)
    requires ev.ResumeStream? || ev.Receiver?
    ensures SameAt(w, w.Step(ev).0, id)
  {
  }

  /** An event does its acts, and nothing else to the routes and to a channel it
      neither establishes nor closes. */
  lemma StepDoesActs(r: Run, ev: SessionEvent, id: HttpRequestId)
    requires Inv(r) && Admissible(ev) && r.Next(ev).established <= U64_LIMIT
    requires id < r.established && ev != CloseRequestWiseChannel(id)
    ensures SameAt(Perform(r.worker, Acts(ev)), r.Next(ev).worker, id)
  {
    match ev
    case FromHandler(m, wake) =>
      if m.IsReply() {
        PerformSnoc(r.worker, [], Forgets(m.id));
        assert [] + [Forgets(m.id)] == [Forgets(m.id)];
      }
      SendSame(r.worker.CatchReply(m), m, wake, id);
    case ClientMessage(m, http) => MessageDoes(r.worker, m, http);
    case ResumeStream(_) => ReceiverSame(r.worker, ev, id);
    case Receiver(_, _) => ReceiverSame(r.worker, ev, id);
    case _ =>
  }

  // Going on from a state

  ghost predicate AllAdmissible(evs: seq<SessionEvent>) {
    forall i :: 0 <= i < |evs| ==> Admissible(evs[i])
  }

  /** The rest of a run, from a state it has reached. */
  ghost function From(r: Run, evs: seq<SessionEvent>): Run
    requires AllAdmissible(evs)
  {
    if evs == [] then r else From(r, evs[..|evs| - 1]).Next(evs[|evs| - 1])
  }

  /** A run goes on from each of its states. */
  lemma {:induction false} RunGoesOn(channelCapacity: nat, before: seq<SessionEvent>, evs: seq<SessionEvent>)
    requires AllAdmissible(before + evs)
    requires AllAdmissible(before) && AllAdmissible(evs)
    ensures Exec(channelCapacity, before + evs) == From(Exec(channelCapacity, before), evs)
    decreases |evs|
  {
    if evs == [] {
      assert before + evs == before;
    } else {
      var n := |evs| - 1;
      assert before + evs == before + evs[..n] + [evs[n]];
      assert (before + evs)[..|before| + n] == before + evs[..n];
      RunGoesOn(channelCapacity, before, evs[..n]);
    }
  }

  /** The state before the last step, when at most 2^64 channels were established in all. */
  lemma LastStep(r: Run, evs: seq<SessionEvent>)
    requires Inv(r) && evs != [] && AllAdmissible(evs) && From(r, evs).established <= U64_LIMIT
    ensures
      var before, last := evs[..|evs| - 1], evs[|evs| - 1];
      && AllAdmissible(before) && Admissible(last)
      && From(r, evs) == From(r, before).Next(last)
      && From(r, before).established <= U64_LIMIT && Inv(From(r, before))
  {
    var before := evs[..|evs| - 1];
    assert From(r, before).established <= From(r, before).Next(evs[|evs| - 1]).established;
    FromKeeps(r, before);
  }

  lemma {:induction false} FromKeeps(r: Run, evs: seq<SessionEvent>)
    requires Inv(r) && AllAdmissible(evs) && From(r, evs).established <= U64_LIMIT
    ensures Inv(From(r, evs)) && r.established <= From(r, evs).established
    decreases |evs|
  {
    if evs != [] {
      var before := evs[..|evs| - 1];
      assert From(r, before).established <= From(r, before).Next(evs[|evs| - 1]).established;
      FromKeeps(r, before);
      NextKeeps(From(r, before), evs[|evs| - 1]);
    }
  }

  // Completion

  /** A reply drops a live channel exactly when it ends the last resource routed to it. */
  lemma CompletionCloses(r: Run, reply: Message, wake: Wake, id: HttpRequestId)
    requires Inv(r) && reply.IsReply() && id in r.worker.txRouter
    ensures
      var key := McpRequestId(reply.id);
      id !in r.Next(FromHandler(reply, wake)).worker.txRouter <==>
        r.worker.Lookup(key) == Some(id) && r.worker.txRouter[id].resources == {key}
  {
    var key := McpRequestId(reply.id);
    SendSame(r.worker.CatchReply(reply), reply, wake, id);
    if r.worker.Lookup(key) == Some(id) {
      assert key in r.worker.txRouter[id].resources;
      assert r.worker.txRouter[id].resources - {key} == {} <==> r.worker.txRouter[id].resources == {key};
    }
  }

  /** The key was held at the start, or posted under the HTTP request since, and its
      request not replied to or cancelled after that. */
  ghost predicate Owed(held: set<ResourceKey>, acts: seq<Act>, id: HttpRequestId, key: ResourceKey) {
    || (key in held && forall q :: 0 <= q < |acts| ==> !acts[q].Drops(key))
    || exists p :: 0 <= p < |acts| && acts[p].Posts(id, key) && forall q :: p < q < |acts| ==> !acts[q].Drops(key)
  }

  ghost predicate Posted(acts: seq<Act>, id: HttpRequestId) {
    exists p :: 0 <= p < |acts| && acts[p].Registers? && acts[p].http == id
  }

  /** There was something to complete, and nothing is owed any more. */
  ghost predicate Settled(held: set<ResourceKey>, acts: seq<Act>, id: HttpRequestId) {
    (held != {} || Posted(acts, id)) && forall key :: !Owed(held, acts, id, key)
  }

  ghost predicate EverSettled(held: set<ResourceKey>, acts: seq<Act>, id: HttpRequestId) {
    exists m :: 0 <= m <= |acts| && Settled(held, acts[..m], id)
  }

  lemma OwedSnoc(held: set<ResourceKey>, acts: seq<Act>, a: Act, id: HttpRequestId, key: ResourceKey)
    ensures Owed(held, acts + [a], id, key) <==> a.Posts(id, key) || (Owed(held, acts, id, key) && !a.Drops(key))
  {
    var more := acts + [a];
    assert more[|acts|] == a && forall q :: 0 <= q < |acts| ==> more[q] == acts[q];
    if Owed(held, acts, id, key) && !a.Drops(key) && !(key in held && forall q :: 0 <= q < |acts| ==> !acts[q].Drops(key)) {
      var p :| 0 <= p < |acts| && acts[p].Posts(id, key) && forall q :: p < q < |acts| ==> !acts[q].Drops(key);
      assert more[p].Posts(id, key);
    }
    if a.Posts(id, key) {
      assert more[|acts|].Posts(id, key);
    } else if Owed(held, more, id, key) && !(key in held && forall q :: 0 <= q < |more| ==> !more[q].Drops(key)) {
      var p :| 0 <= p < |more| && more[p].Posts(id, key) && forall q :: p < q < |more| ==> !more[q].Drops(key);
      assert acts[p].Posts(id, key);
    }
  }

  lemma PostedSnoc(acts: seq<Act>, a: Act, id: HttpRequestId)
    ensures Posted(acts + [a], id) <==> Posted(acts, id) || (a.Registers? && a.http == id)
  {
    assert forall p :: 0 <= p < |acts| ==> (acts + [a])[p] == acts[p];
    assert (acts + [a])[|acts|] == a;
  }

  lemma EverSettledSnoc(held: set<ResourceKey>, acts: seq<Act>, a: Act, id: HttpRequestId)
    ensures EverSettled(held, acts + [a], id) <==> EverSettled(held, acts, id) || Settled(held, acts + [a], id)
  {
    var more := acts + [a];
    assert forall m :: 0 <= m <= |acts| ==> more[..m] == acts[..m];
    assert more[..|more|] == more;
  }

  /** What is owed was there to complete. */
  lemma OwedIsPosted(held: set<ResourceKey>, acts: seq<Act>, id: HttpRequestId, key: ResourceKey)
    requires Owed(held, acts, id, key)
    ensures held != {} || Posted(acts, id)
  {
  }

  /** Every resource of a live channel is routed to it, and nothing else is. */
  ghost predicate ExactAt(w: Worker, id: HttpRequestId) {
    id in w.txRouter && forall key :: key in w.txRouter[id].resources <==> w.Lookup(key) == Some(id)
  }

  /** The act routes a resource of this channel to another live one. */
  ghost predicate Takes(w: Worker, a: Act, id: HttpRequestId, key: ResourceKey) {
    && a.Registers? && a.http != id && a.http in w.txRouter
    && key in KeysOf(a.requestId, a.request) && w.Lookup(key) == Some(id)
  }

  ghost predicate TakesAny(w: Worker, a: Act, id: HttpRequestId) {
    exists key :: Takes(w, a, id, key)
  }

  lemma RegistersAt(w: Worker, a: Act, id: HttpRequestId)
    requires ExactAt(w, id) && a.Registers? && !TakesAny(w, a, id)
    ensures ExactAt(Do(w, a), id)
    ensures forall key :: key in Do(w, a).txRouter[id].resources <==> key in w.txRouter[id].resources || a.Posts(id, key)
  {
    var w' := Do(w, a);
    forall key
      ensures w'.Lookup(key) ==
        if a.http in w.txRouter && key in KeysOf(a.requestId, a.request) then Some(a.http) else w.Lookup(key)
    {
    }
    forall key | a.http != id && a.http in w.txRouter && key in KeysOf(a.requestId, a.request)
      ensures w.Lookup(key) != Some(id)
    {
      assert !Takes(w, a, id, key);
    }
  }

  lemma ForgetsAt(w: Worker, a: Act, id: HttpRequestId)
    requires ExactAt(w, id) && a.Forgets?
    ensures
      var key := McpRequestId(a.requestId);
      if w.txRouter[id].resources == {key} then id !in Do(w, a).txRouter
      else ExactAt(Do(w, a), id) && Do(w, a).txRouter[id].resources == w.txRouter[id].resources - {key}
  {
    var key := McpRequestId(a.requestId);
    if key in w.txRouter[id].resources {
      assert w.Lookup(key) == Some(id);
    } else {
      assert w.Lookup(key) != Some(id);
      assert w.txRouter[id].resources - {key} == w.txRouter[id].resources;
    }
  }

  lemma GoneStaysGone(w: Worker, a: Act, id: HttpRequestId)
    requires id !in w.txRouter
    ensures id !in Do(w, a).txRouter
  {
  }

  /** The channel is what the acts since its start make it. */
  ghost predicate ChannelIs(held: set<ResourceKey>, w: Worker, acts: seq<Act>, id: HttpRequestId) {
    if EverSettled(held, acts, id) then id !in w.txRouter
    else ExactAt(w, id) && forall key :: key in w.txRouter[id].resources <==> Owed(held, acts, id, key)
  }

  lemma ActKeepsChannel(held: set<ResourceKey>, w: Worker, acts: seq<Act>, a: Act, id: HttpRequestId)
    requires ChannelIs(held, w, acts, id) && !TakesAny(w, a, id)
    ensures ChannelIs(held, Do(w, a), acts + [a], id)
  {
    EverSettledSnoc(held, acts, a, id);
    PostedSnoc(acts, a, id);
    if EverSettled(held, acts, id) {
      GoneStaysGone(w, a, id);
    } else {
      forall key { OwedSnoc(held, acts, a, id, key); }
      if a.Registers? {
        RegistersAt(w, a, id);
        PostingOwes(held, acts, a, id);
      } else {
        ForgetsAt(w, a, id);
        ForgettingSettles(held, w, acts, a, id);
      }
    }
  }

  /** A posting settles nothing. */
  lemma PostingOwes(held: set<ResourceKey>, acts: seq<Act>, a: Act, id: HttpRequestId)
    requires a.Registers? && !EverSettled(held, acts, id)
    ensures !Settled(held, acts + [a], id)
  {
    assert !Settled(held, acts[..|acts|], id) && acts[..|acts|] == acts;
    PostedSnoc(acts, a, id);
    var key := McpRequestId(a.requestId);
    if a.http == id {
      OwedSnoc(held, acts, a, id, key);
      assert Owed(held, acts + [a], id, key);
    } else if held != {} || Posted(acts, id) {
      var k :| Owed(held, acts, id, k);
      OwedSnoc(held, acts, a, id, k);
    }
  }

  lemma ForgettingSettles(held: set<ResourceKey>, w: Worker, acts: seq<Act>, a: Act, id: HttpRequestId)
    requires a.Forgets? && !EverSettled(held, acts, id) && id in w.txRouter
    requires forall key :: key in w.txRouter[id].resources <==> Owed(held, acts, id, key)
    ensures Settled(held, acts + [a], id) <==> w.txRouter[id].resources == {McpRequestId(a.requestId)}
  {
    var own, mine := w.txRouter[id].resources, McpRequestId(a.requestId);
    assert !Settled(held, acts[..|acts|], id) && acts[..|acts|] == acts;
    PostedSnoc(acts, a, id);
    forall key ensures Owed(held, acts + [a], id, key) <==> key in own && key != mine {
      OwedSnoc(held, acts, a, id, key);
    }
    if own == {mine} {
      assert Owed(held, acts, id, mine);
      OwedIsPosted(held, acts, id, mine);
    }
    if Settled(held, acts + [a], id) {
      var k :| Owed(held, acts, id, k);
      assert k in own;
      forall key | key in own ensures key == mine {
        assert !Owed(held, acts + [a], id, key);
      }
      assert own == {mine};
    }
  }

  /** Some act of the event takes a resource of this channel to another one. */
  ghost predicate TakesFrom(w: Worker, ev: SessionEvent, id: HttpRequestId) {
    exists j :: 0 <= j < |Acts(ev)| && TakesAny(Perform(w, Acts(ev)[..j]), Acts(ev)[j], id)
  }

  lemma {:induction false} PerformKeepsChannel(held: set<ResourceKey>, w: Worker, acts: seq<Act>, more: seq<Act>, id: HttpRequestId)
    requires ChannelIs(held, w, acts, id)
    requires forall j :: 0 <= j < |more| ==> !TakesAny(Perform(w, more[..j]), more[j], id)
    ensures ChannelIs(held, Perform(w, more), acts + more, id)
    decreases |more|
  {
    if more == [] {
      assert acts + more == acts;
    } else {
      var n := |more| - 1;
      assert forall j :: 0 <= j < n ==> more[..n][..j] == more[..j];
      PerformKeepsChannel(held, w, acts, more[..n], id);
      ActKeepsChannel(held, Perform(w, more[..n]), acts + more[..n], more[n], id);
      assert acts + more == acts + more[..n] + [more[n]];
    }
  }

  lemma SameChannelIs(held: set<ResourceKey>, w: Worker, w': Worker, acts: seq<Act>, id: HttpRequestId)
    requires ChannelIs(held, w, acts, id) && SameAt(w, w', id)
    ensures ChannelIs(held, w', acts, id)
  {
    assert forall key :: w'.Lookup(key) == w.Lookup(key);
    assert id in w.txRouter <==> Channel(w, id).Some?;
    assert id in w'.txRouter <==> Channel(w', id).Some?;
  }

  lemma NextKeepsChannel(held: set<ResourceKey>, r: Run, ev: SessionEvent, acts: seq<Act>, id: HttpRequestId)
    requires Inv(r) && Admissible(ev) && r.Next(ev).established <= U64_LIMIT
    requires id < r.established && ev != CloseRequestWiseChannel(id) && !TakesFrom(r.worker, ev, id)
    requires ChannelIs(held, r.worker, acts, id)
    ensures ChannelIs(held, r.Next(ev).worker, acts + Acts(ev), id)
  {
    PerformKeepsChannel(held, r.worker, acts, Acts(ev), id);
    StepDoesActs(r, ev, id);
    SameChannelIs(held, Perform(r.worker, Acts(ev)), r.Next(ev).worker, acts + Acts(ev), id);
  }

  /** A channel without stranded resources holds exactly what is routed to it. */
  lemma ExactIffNoneStranded(r: Run, id: HttpRequestId)
    requires Inv(r) && id in r.worker.txRouter
    ensures ExactAt(r.worker, id) <==> forall key :: !Stranded(r.worker, id, key)
  {
    if forall key :: !Stranded(r.worker, id, key) {
      forall key ensures key in r.worker.txRouter[id].resources <==> r.worker.Lookup(key) == Some(id) {
        assert !Stranded(r.worker, id, key);
      }
    }
  }

  lemma ChannelStarts(w: Worker, id: HttpRequestId)
    requires ExactAt(w, id)
    ensures ChannelIs(w.txRouter[id].resources, w, [], id)
  {
    var held := w.txRouter[id].resources;
    assert forall key :: Owed(held, [], id, key) <==> key in held;
    assert !Settled(held, [], id);
  }

  /** At no step is the channel closed explicitly or one of its resources taken by
      another HTTP request. */
  ghost predicate Undisturbed(r: Run, evs: seq<SessionEvent>, id: HttpRequestId)
    requires AllAdmissible(evs)
  {
    evs != [] ==>
      var n := |evs| - 1;
      && Undisturbed(r, evs[..n], id)
      && evs[n] != CloseRequestWiseChannel(id) && !TakesFrom(From(r, evs[..n]).worker, evs[n], id)
  }

  lemma {:induction false} ChannelIsActs(held: set<ResourceKey>, r: Run, evs: seq<SessionEvent>, id: HttpRequestId)
    requires Inv(r) && AllAdmissible(evs) && From(r, evs).established <= U64_LIMIT
    requires id < r.established && ChannelIs(held, r.worker, [], id) && Undisturbed(r, evs, id)
    ensures ChannelIs(held, From(r, evs).worker, ActsOf(evs), id)
    decreases |evs|
  {
    if evs != [] {
      var n := |evs| - 1;
      LastStep(r, evs);
      FromKeeps(r, evs[..n]);
      ChannelIsActs(held, r, evs[..n], id);
      NextKeepsChannel(held, From(r, evs[..n]), evs[n], ActsOf(evs[..n]), id);
    }
  }

  /** The state right after a channel was established. */
  ghost function Opened(r: Run): Run {
    r.Next(EstablishRequestWiseChannel)
  }

  lemma OpenedIsExact(r: Run)
    requires Inv(r) && r.established < U64_LIMIT
    ensures Inv(Opened(r)) && Opened(r).established == r.established + 1
    ensures ExactAt(Opened(r).worker, r.established) && Opened(r).worker.txRouter[r.established].resources == {}
  {
    NextKeeps(r, EstablishRequestWiseChannel);
    assert r.worker.nextHttpRequestId == r.established;
    forall key ensures Opened(r).worker.Lookup(key) != Some(r.established) {
      if key in r.worker.resourceRouter {
        assert r.worker.resourceRouter[key] in r.closed || r.worker.resourceRouter[key] in r.worker.txRouter;
      }
    }
  }

  /** Over every run from a point where a channel has no stranded resource, as when
      it is established: while it is not disturbed it is gone exactly if at some
      point there had been something to complete and nothing of it was owed. */
  lemma GoneIffSettled(r: Run, evs: seq<SessionEvent>, id: HttpRequestId)
    requires Inv(r) && ExactAt(r.worker, id)
    requires AllAdmissible(evs) && From(r, evs).established <= U64_LIMIT && Undisturbed(r, evs, id)
    ensures id !in From(r, evs).worker.txRouter <==> EverSettled(r.worker.txRouter[id].resources, ActsOf(evs), id)
  {
    ChannelStarts(r.worker, id);
    ChannelIsActs(r.worker.txRouter[id].resources, r, evs, id);
  }

  /** No progress token was held or posted, and each request held or posted was
      replied to or cancelled later. */
  ghost predicate Completed(held: set<ResourceKey>, acts: seq<Act>, id: HttpRequestId) {
    && (forall key :: key in held ==> exists q :: 0 <= q < |acts| && acts[q].Drops(key))
    && forall p :: 0 <= p < |acts| && acts[p].Registers? && acts[p].http == id ==>
         acts[p].request.progressToken == None && exists q :: p < q < |acts| && acts[q] == Forgets(acts[p].requestId)
  }

  lemma CompletedIffNothingOwed(held: set<ResourceKey>, acts: seq<Act>, id: HttpRequestId)
    ensures Completed(held, acts, id) <==> forall key :: !Owed(held, acts, id, key)
  {
    if forall key :: !Owed(held, acts, id, key) {
      forall key | key in held ensures exists q :: 0 <= q < |acts| && acts[q].Drops(key) {
        assert !Owed(held, acts, id, key);
      }
      forall p | 0 <= p < |acts| && acts[p].Registers? && acts[p].http == id
        ensures acts[p].request.progressToken == None
        ensures exists q :: p < q < |acts| && acts[q] == Forgets(acts[p].requestId)
      {
        PostedNotOwed(held, acts, id, p);
      }
    }
  }

  /** Nothing ends a progress token. */
  lemma TokenStaysOwed(held: set<ResourceKey>, acts: seq<Act>, id: HttpRequestId, p: nat)
    requires p < |acts| && acts[p].Registers? && acts[p].http == id
    ensures acts[p].request.progressToken.Some? ==>
              Owed(held, acts, id, ProgressToken(acts[p].request.progressToken.value))
  {
    if acts[p].request.progressToken.Some? {
      assert acts[p].Posts(id, ProgressToken(acts[p].request.progressToken.value));
    }
  }

  lemma PostedNotOwed(held: set<ResourceKey>, acts: seq<Act>, id: HttpRequestId, p: nat)
    requires p < |acts| && acts[p].Registers? && acts[p].http == id
    requires forall key :: !Owed(held, acts, id, key)
    ensures acts[p].request.progressToken == None
    ensures exists q :: p < q < |acts| && acts[q] == Forgets(acts[p].requestId)
  {
    TokenStaysOwed(held, acts, id, p);
    var key := McpRequestId(acts[p].requestId);
    assert acts[p].Posts(id, key) && !Owed(held, acts, id, key);
  }

  lemma {:induction false} ActsAppend(evs: seq<SessionEvent>, more: seq<SessionEvent>)
    ensures ActsOf(evs + more) == ActsOf(evs) + ActsOf(more)
    decreases |more|
  {
    if more == [] {
      assert evs + more == evs;
    } else {
      var n := |more| - 1;
      ActsAppend(evs, more[..n]);
      Sequences.AppendSnoc(evs, more);
      Sequences.AppendAppend(ActsOf(evs), ActsOf(more[..n]), Acts(more[n]));
    }
  }

  lemma UndisturbedInit(r: Run, evs: seq<SessionEvent>, id: HttpRequestId)
    requires Inv(r) && AllAdmissible(evs) && evs != []
    requires From(r, evs).established <= U64_LIMIT && Undisturbed(r, evs, id)
    ensures
      var init := evs[..|evs| - 1];
      AllAdmissible(init) && From(r, init).established <= U64_LIMIT && Undisturbed(r, init, id)
  {
    LastStep(r, evs);
  }

  lemma {:induction false} UndisturbedBefore(r: Run, evs: seq<SessionEvent>, more: seq<SessionEvent>, id: HttpRequestId)
    requires Inv(r) && AllAdmissible(evs) && AllAdmissible(evs + more)
    requires From(r, evs + more).established <= U64_LIMIT && Undisturbed(r, evs + more, id)
    ensures From(r, evs).established <= U64_LIMIT && Undisturbed(r, evs, id)
    decreases |more|
  {
    if more == [] {
      assert evs + more == evs;
    } else {
      UndisturbedInit(r, evs + more, id);
      Sequences.AppendSnoc(evs, more);
      UndisturbedBefore(r, evs, more[..|more| - 1], id);
    }
  }

  ghost predicate NothingPosted(acts: seq<Act>, id: HttpRequestId) {
    forall p :: 0 <= p < |acts| && acts[p].Registers? ==> acts[p].http != id
  }

  /** Once everything has been posted, having settled at some point is being completed. */
  lemma SettledIffCompleted(held: set<ResourceKey>, posting: seq<Act>, more: seq<Act>, id: HttpRequestId)
    requires (held != {} || Posted(posting, id)) && !EverSettled(held, posting, id) && NothingPosted(more, id)
    ensures EverSettled(held, posting + more, id) <==> Completed(held, posting + more, id)
  {
    var acts := posting + more;
    CompletedIffNothingOwed(held, acts, id);
    assert acts[..|acts|] == acts;
    if held == {} {
      var p0 :| 0 <= p0 < |posting| && posting[p0].Registers? && posting[p0].http == id;
      assert acts[p0] == posting[p0];
    }
    if EverSettled(held, acts, id) {
      var m :| 0 <= m <= |acts| && Settled(held, acts[..m], id);
      SettledLater(held, posting, more, m, id);
      CompletedIffNothingOwed(held, acts[..m], id);
      CompletedGrows(held, posting, more, m, id);
    }
  }

  lemma SettledLater(held: set<ResourceKey>, posting: seq<Act>, more: seq<Act>, m: nat, id: HttpRequestId)
    requires !EverSettled(held, posting, id)
    requires m <= |posting + more| && Settled(held, (posting + more)[..m], id)
    ensures m > |posting|
  {
    forall k | 0 <= k <= |posting| ensures (posting + more)[..k] == posting[..k] {
    }
  }

  lemma CompletedGrows(held: set<ResourceKey>, posting: seq<Act>, more: seq<Act>, m: nat, id: HttpRequestId)
    requires |posting| <= m <= |posting + more| && NothingPosted(more, id)
    requires Completed(held, (posting + more)[..m], id)
    ensures Completed(held, posting + more, id)
  {
    var acts := posting + more;
    assert forall p :: |posting| <= p < |acts| ==> acts[p] == more[p - |posting|];
    forall key | key in held ensures exists q :: 0 <= q < |acts| && acts[q].Drops(key) {
      var q :| 0 <= q < m && acts[..m][q].Drops(key);
      assert acts[q].Drops(key);
    }
    forall p | 0 <= p < |acts| && acts[p].Registers? && acts[p].http == id
      ensures acts[p].request.progressToken == None
      ensures exists q :: p < q < |acts| && acts[q] == Forgets(acts[p].requestId)
    {
      assert acts[..m][p] == acts[p];
      var q :| p < q < m && acts[..m][q] == Forgets(acts[p].requestId);
      assert acts[q] == Forgets(acts[p].requestId);
    }
  }

  /** The channel of an HTTP request whose posting is over and left it alive: while
      it is not disturbed it is gone exactly if no progress token was held or posted
      and every request held or posted was replied to or cancelled. With `Opened` for
      `r` that is the channel's whole life; with nothing in `posting` it is what
      follows any point without stranded resources, also after some were stranded. */
  lemma ClosedOnceCompleted(r: Run, posting: seq<SessionEvent>, evs: seq<SessionEvent>, id: HttpRequestId)
    requires Inv(r) && ExactAt(r.worker, id)
    requires AllAdmissible(posting) && AllAdmissible(posting + evs)
    requires From(r, posting + evs).established <= U64_LIMIT && Undisturbed(r, posting + evs, id)
    requires r.worker.txRouter[id].resources != {} || Posted(ActsOf(posting), id)
    requires id in From(r, posting).worker.txRouter && NothingPosted(ActsOf(evs), id)
    ensures id !in From(r, posting + evs).worker.txRouter <==>
      Completed(r.worker.txRouter[id].resources, ActsOf(posting + evs), id)
  {
    UndisturbedBefore(r, posting, evs, id);
    GoneIffSettled(r, posting, id);
    GoneIffSettled(r, posting + evs, id);
    ActsAppend(posting, evs);
    SettledIffCompleted(r.worker.txRouter[id].resources, ActsOf(posting), ActsOf(evs), id);
  }

  // Resources taken by another HTTP request

  /** The channel holds a resource that is not routed to it. */
  ghost predicate Stranded(w: Worker, id: HttpRequestId, key: ResourceKey) {
    id in w.txRouter && key in w.txRouter[id].resources && w.Lookup(key) != Some(id)
  }

  /** Taking a resource is what strands it. */
  lemma StrandedIffTaken(w: Worker, a: Act, id: HttpRequestId, key: ResourceKey)
    requires ExactAt(w, id)
    ensures Stranded(Do(w, a), id, key) <==> Takes(w, a, id, key)
  {
    if a.Forgets? {
      ForgetsAt(w, a, id);
    } else {
      assert key in w.txRouter[id].resources <==> w.Lookup(key) == Some(id);
    }
  }

  /** A stranded resource keeps its channel through every act but its own posting. */
  lemma ActStranded(w: Worker, a: Act, id: HttpRequestId, key: ResourceKey)
    requires Stranded(w, id, key)
    ensures Stranded(Do(w, a), id, key) <==> !a.Posts(id, key)
  {
    if a.Forgets? {
      var gone := McpRequestId(a.requestId);
      assert w.Lookup(gone) == Some(id) ==> key in w.txRouter[id].resources - {gone};
    }
  }

  /** And once posted again it is not stranded by what follows in the same message. */
  lemma ActNotStranded(w: Worker, a: Act, id: HttpRequestId, key: ResourceKey)
    requires !Stranded(w, id, key) && (a.Registers? ==> a.http == id)
    ensures !Stranded(Do(w, a), id, key)
  {
  }

  /** All postings of one event are under one HTTP request. */
  ghost predicate OneRequest(acts: seq<Act>) {
    forall i, j :: 0 <= i < |acts| && 0 <= j < |acts| && acts[i].Registers? && acts[j].Registers? ==> acts[i].http == acts[j].http
  }

  lemma {:induction false} BatchUnder(items: seq<BatchRequestItem>, http: Option<HttpRequestId>)
    ensures forall i :: 0 <= i < |BatchActs(items, http)| && BatchActs(items, http)[i].Registers? ==>
              Some(BatchActs(items, http)[i].http) == http
    decreases |items|
  {
    if items != [] {
      BatchUnder(items[..|items| - 1], http);
    }
  }

  lemma EventIsOneRequest(ev: SessionEvent)
    ensures OneRequest(Acts(ev))
  {
    if ev.ClientMessage? && ev.message.BatchRequest? {
      BatchUnder(ev.message.requests, ev.httpRequestId);
    }
  }

  ghost predicate PostsAny(acts: seq<Act>, id: HttpRequestId, key: ResourceKey) {
    exists j :: 0 <= j < |acts| && acts[j].Posts(id, key)
  }

  lemma PostsAnySnoc(acts: seq<Act>, a: Act, id: HttpRequestId, key: ResourceKey)
    ensures PostsAny(acts + [a], id, key) <==> PostsAny(acts, id, key) || a.Posts(id, key)
  {
    assert forall j :: 0 <= j < |acts| ==> (acts + [a])[j] == acts[j];
    assert (acts + [a])[|acts|] == a;
  }

  lemma {:induction false} PerformStranded(w: Worker, acts: seq<Act>, id: HttpRequestId, key: ResourceKey)
    requires Stranded(w, id, key) && OneRequest(acts)
    ensures Stranded(Perform(w, acts), id, key) <==> !PostsAny(acts, id, key)
    decreases |acts|
  {
    if acts != [] {
      var n := |acts| - 1;
      var before := Perform(w, acts[..n]);
      PerformStranded(w, acts[..n], id, key);
      assert acts == acts[..n] + [acts[n]];
      PostsAnySnoc(acts[..n], acts[n], id, key);
      if PostsAny(acts[..n], id, key) {
        var j :| 0 <= j < n && acts[..n][j].Posts(id, key);
        assert acts[j] == acts[..n][j];
        ActNotStranded(before, acts[n], id, key);
      } else {
        ActStranded(before, acts[n], id, key);
      }
    }
  }

  /** This event posts the resource under its old channel, or closes that. */
  ghost predicate Releases(ev: SessionEvent, id: HttpRequestId, key: ResourceKey) {
    ev == CloseRequestWiseChannel(id) || PostsAny(Acts(ev), id, key)
  }

  lemma NextStranded(r: Run, ev: SessionEvent, id: HttpRequestId, key: ResourceKey)
    requires Inv(r) && Admissible(ev) && r.Next(ev).established <= U64_LIMIT
    requires Stranded(r.worker, id, key)
    ensures Stranded(r.Next(ev).worker, id, key) <==> !Releases(ev, id, key)
  {
    if ev != CloseRequestWiseChannel(id) {
      EventIsOneRequest(ev);
      PerformStranded(r.worker, Acts(ev), id, key);
      StepDoesActs(r, ev, id);
      var w, w' := Perform(r.worker, Acts(ev)), r.Next(ev).worker;
      assert Channel(w, id) == Channel(w', id) && w.Lookup(key) == w'.Lookup(key);
    }
  }

  /** Stranded after every step of what follows. */
  ghost predicate StrandedThroughout(r: Run, evs: seq<SessionEvent>, id: HttpRequestId, key: ResourceKey)
    requires AllAdmissible(evs)
  {
    Stranded(From(r, evs).worker, id, key) && (evs != [] ==> StrandedThroughout(r, evs[..|evs| - 1], id, key))
  }

  ghost predicate Released(evs: seq<SessionEvent>, id: HttpRequestId, key: ResourceKey) {
    exists n :: 0 <= n < |evs| && Releases(evs[n], id, key)
  }

  lemma ReleasedSnoc(evs: seq<SessionEvent>, id: HttpRequestId, key: ResourceKey)
    requires evs != []
    ensures Released(evs, id, key) <==> Released(evs[..|evs| - 1], id, key) || Releases(evs[|evs| - 1], id, key)
  {
    assert forall n :: 0 <= n < |evs| - 1 ==> evs[..|evs| - 1][n] == evs[n];
  }

  /** Whatever follows, a resource taken from a channel keeps that channel alive, and
      stays out of reach of replies and cancellations, exactly until it is posted
      under that HTTP request again or the channel is closed explicitly. */
  lemma {:induction false} RebindLeaks(r: Run, evs: seq<SessionEvent>, id: HttpRequestId, key: ResourceKey)
    requires Inv(r) && AllAdmissible(evs) && From(r, evs).established <= U64_LIMIT
    requires Stranded(r.worker, id, key)
    ensures StrandedThroughout(r, evs, id, key) <==> !Released(evs, id, key)
    decreases |evs|
  {
    if evs != [] {
      var n := |evs| - 1;
      LastStep(r, evs);
      RebindLeaks(r, evs[..n], id, key);
      ReleasedSnoc(evs, id, key);
      if StrandedThroughout(r, evs[..n], id, key) {
        NextStranded(From(r, evs[..n]), evs[n], id, key);
      }
    }
  }

  // Progress tokens

  ghost predicate HoldsToken(w: Worker, id: HttpRequestId, token: RequestId) {
    id in w.txRouter && ProgressToken(token) in w.txRouter[id].resources
  }

  ghost predicate RoutesToken(w: Worker, id: HttpRequestId, token: RequestId) {
    HoldsToken(w, id, token) && w.Lookup(ProgressToken(token)) == Some(id)
  }

  /** Posting a request on a live channel routes its id and its token to it, and
      changes no other route. */
  lemma PostingRoutes(w: Worker, requestId: RequestId, request: RequestBody, id: HttpRequestId)
    requires id in w.txRouter
    ensures
      var w' := w.RegisterRequest(requestId, request, id);
      && (forall key :: w'.Lookup(key) == if key in KeysOf(requestId, request) then Some(id) else w.Lookup(key))
      && Channel(w', id) == Some(w.txRouter[id].resources + KeysOf(requestId, request))
  {
    var w' := w.RegisterRequest(requestId, request, id);
    assert w'.txRouter[id].resources == w.txRouter[id].resources + KeysOf(requestId, request);
  }

  lemma ActHoldsToken(w: Worker, a: Act, id: HttpRequestId, token: RequestId)
    requires HoldsToken(w, id, token)
    ensures HoldsToken(Do(w, a), id, token)
  {
    if a.Forgets? {
      assert ProgressToken(token) in w.txRouter[id].resources - {McpRequestId(a.requestId)};
    }
  }

  lemma {:induction false} PerformHoldsToken(w: Worker, acts: seq<Act>, id: HttpRequestId, token: RequestId)
    requires HoldsToken(w, id, token)
    ensures HoldsToken(Perform(w, acts), id, token)
    decreases |acts|
  {
    if acts != [] {
      PerformHoldsToken(w, acts[..|acts| - 1], id, token);
      ActHoldsToken(Perform(w, acts[..|acts| - 1]), acts[|acts| - 1], id, token);
    }
  }

  lemma NextHoldsToken(r: Run, ev: SessionEvent, id: HttpRequestId, token: RequestId)
    requires Inv(r) && Admissible(ev) && r.Next(ev).established <= U64_LIMIT
    requires HoldsToken(r.worker, id, token) && ev != CloseRequestWiseChannel(id)
    ensures HoldsToken(r.Next(ev).worker, id, token)
  {
    PerformHoldsToken(r.worker, Acts(ev), id, token);
    StepDoesActs(r, ev, id);
    assert Channel(Perform(r.worker, Acts(ev)), id) == Channel(r.Next(ev).worker, id);
  }

  ghost predicate NotClosed(evs: seq<SessionEvent>, id: HttpRequestId) {
    forall i :: 0 <= i < |evs| ==> evs[i] != CloseRequestWiseChannel(id)
  }

  /** Progress tokens are never unregistered, so a channel that got one stays
      until it is closed explicitly, whatever completes or is cancelled. */
  lemma {:induction false} TokenKeepsChannel(r: Run, evs: seq<SessionEvent>, id: HttpRequestId, token: RequestId)
    requires Inv(r) && AllAdmissible(evs) && From(r, evs).established <= U64_LIMIT
    requires HoldsToken(r.worker, id, token) && NotClosed(evs, id)
    ensures HoldsToken(From(r, evs).worker, id, token)
    decreases |evs|
  {
    if evs != [] {
      var n := |evs| - 1;
      LastStep(r, evs);
      TokenKeepsChannel(r, evs[..n], id, token);
      NextHoldsToken(From(r, evs[..n]), evs[n], id, token);
    }
  }

  // Where a request's notifications go

  /** The event posts a request with this token under a live channel. */
  ghost predicate PostsToken(w: Worker, ev: SessionEvent, id: HttpRequestId, token: RequestId) {
    exists j :: 0 <= j < |Acts(ev)| && Acts(ev)[j].Posts(id, ProgressToken(token)) && id in Perform(w, Acts(ev)[..j]).txRouter
  }

  /** The event posts a request with this token under another HTTP request. */
  ghost predicate PostsElsewhere(acts: seq<Act>, id: HttpRequestId, token: RequestId) {
    exists j :: 0 <= j < |acts| && acts[j].Registers? && acts[j].http != id
      && ProgressToken(token) in KeysOf(acts[j].requestId, acts[j].request)
  }

  lemma ActRoutesToken(w: Worker, a: Act, id: HttpRequestId, token: RequestId)
    requires RoutesToken(w, id, token)
    requires a.Registers? && a.http != id ==> ProgressToken(token) !in KeysOf(a.requestId, a.request)
    ensures RoutesToken(Do(w, a), id, token)
  {
    ActHoldsToken(w, a, id, token);
  }

  lemma {:induction false} PerformRoutesToken(w: Worker, acts: seq<Act>, id: HttpRequestId, token: RequestId)
    requires RoutesToken(w, id, token) && !PostsElsewhere(acts, id, token)
    ensures RoutesToken(Perform(w, acts), id, token)
    decreases |acts|
  {
    if acts != [] {
      var n := |acts| - 1;
      assert forall j :: 0 <= j < n ==> acts[..n][j] == acts[j];
      PerformRoutesToken(w, acts[..n], id, token);
      ActRoutesToken(Perform(w, acts[..n]), acts[n], id, token);
    }
  }

  lemma {:induction false} PerformAppend(w: Worker, acts: seq<Act>, more: seq<Act>)
    ensures Perform(w, acts + more) == Perform(Perform(w, acts), more)
    decreases |more|
  {
    if more == [] {
      assert acts + more == acts;
    } else {
      PerformAppend(w, acts, more[..|more| - 1]);
      PerformSnoc(w, acts + more[..|more| - 1], more[|more| - 1]);
      assert acts + more == acts + more[..|more| - 1] + [more[|more| - 1]];
    }
  }

  /** After a posting the token is routed to its channel. */
  lemma PerformPostsToken(w: Worker, acts: seq<Act>, j: nat, id: HttpRequestId, token: RequestId)
    requires OneRequest(acts) && j < |acts| && acts[j].Posts(id, ProgressToken(token))
    requires id in Perform(w, acts[..j]).txRouter
    ensures RoutesToken(Perform(w, acts), id, token)
  {
    var before, rest := Perform(w, acts[..j]), acts[j + 1..];
    DoPostsToken(before, acts[j], id, token);
    SplitAt(acts, j);
    PerformSnoc(w, acts[..j], acts[j]);
    PerformRoutesToken(Do(before, acts[j]), rest, id, token);
    PerformAppend(w, acts[..j] + [acts[j]], rest);
  }

  lemma SplitAt<T>(s: seq<T>, j: nat)
    requires j < |s|
    ensures s == (s[..j] + [s[j]]) + s[j + 1..]
  {
  }

  lemma DoPostsToken(w: Worker, a: Act, id: HttpRequestId, token: RequestId)
    requires a.Posts(id, ProgressToken(token)) && id in w.txRouter
    ensures RoutesToken(Do(w, a), id, token)
  {
    PostingRoutes(w, a.requestId, a.request, id);
  }

  lemma SameRoutesToken(w: Worker, w': Worker, id: HttpRequestId, token: RequestId)
    requires RoutesToken(w, id, token) && SameAt(w, w', id)
    ensures RoutesToken(w', id, token)
  {
    assert Channel(w', id) == Channel(w, id);
  }

  lemma PostingStarts(r: Run, ev: SessionEvent, id: HttpRequestId, token: RequestId)
    requires Inv(r) && Admissible(ev) && r.Next(ev).established <= U64_LIMIT
    requires PostsToken(r.worker, ev, id, token)
    ensures RoutesToken(r.Next(ev).worker, id, token)
  {
    var j :| 0 <= j < |Acts(ev)| && Acts(ev)[j].Posts(id, ProgressToken(token)) && id in Perform(r.worker, Acts(ev)[..j]).txRouter;
    EventIsOneRequest(ev);
    PerformPostsToken(r.worker, Acts(ev), j, id, token);
    LiveBefore(r.worker, Acts(ev)[..j], id);
    StepDoesActs(r, ev, id);
    SameRoutesToken(Perform(r.worker, Acts(ev)), r.Next(ev).worker, id, token);
  }

  /** Acts make no channel. */
  lemma {:induction false} LiveBefore(w: Worker, acts: seq<Act>, id: HttpRequestId)
    requires id in Perform(w, acts).txRouter
    ensures id in w.txRouter
    decreases |acts|
  {
    if acts != [] {
      if id !in Perform(w, acts[..|acts| - 1]).txRouter {
        GoneStaysGone(Perform(w, acts[..|acts| - 1]), acts[|acts| - 1], id);
      }
      LiveBefore(w, acts[..|acts| - 1], id);
    }
  }

  lemma NextRoutesToken(r: Run, ev: SessionEvent, id: HttpRequestId, token: RequestId)
    requires Inv(r) && Admissible(ev) && r.Next(ev).established <= U64_LIMIT
    requires RoutesToken(r.worker, id, token)
    requires ev != CloseRequestWiseChannel(id) && !PostsElsewhere(Acts(ev), id, token)
    ensures RoutesToken(r.Next(ev).worker, id, token)
  {
    PerformRoutesToken(r.worker, Acts(ev), id, token);
    StepDoesActs(r, ev, id);
    SameRoutesToken(Perform(r.worker, Acts(ev)), r.Next(ev).worker, id, token);
  }

  /** At no step is the channel closed explicitly or its token posted by another HTTP request. */
  ghost predicate TokenLeftAlone(evs: seq<SessionEvent>, id: HttpRequestId, token: RequestId) {
    forall i :: 0 <= i < |evs| ==> evs[i] != CloseRequestWiseChannel(id) && !PostsElsewhere(Acts(evs[i]), id, token)
  }

  lemma {:induction false} TokenRouteKept(r: Run, evs: seq<SessionEvent>, id: HttpRequestId, token: RequestId)
    requires Inv(r) && AllAdmissible(evs) && From(r, evs).established <= U64_LIMIT
    requires RoutesToken(r.worker, id, token) && TokenLeftAlone(evs, id, token)
    ensures RoutesToken(From(r, evs).worker, id, token)
    decreases |evs|
  {
    if evs != [] {
      var n := |evs| - 1;
      LastStep(r, evs);
      TokenRouteKept(r, evs[..n], id, token);
      NextRoutesToken(From(r, evs[..n]), evs[n], id, token);
    }
  }

  /** Once an event has posted a request with a progress token on a live channel, and
      until that is closed explicitly or another HTTP request posts the same token,
      every progress notification for it goes to that channel and nowhere else. */
  lemma ProgressReachesRequest(
    r: Run, posting: SessionEvent, evs: seq<SessionEvent>, id: HttpRequestId, token: RequestId,
    progress: string, wake: Wake)
    requires Inv(r) && Admissible(posting) && AllAdmissible(evs)
    requires From(r.Next(posting), evs).established <= U64_LIMIT && r.Next(posting).established <= U64_LIMIT
    requires PostsToken(r.worker, posting, id, token) && TokenLeftAlone(evs, id, token)
    ensures
      var w := From(r.Next(posting), evs).worker;
      var m := Notification(Progress(token, progress));
      id in w.txRouter &&
      w.Step(FromHandler(m, wake)) ==
        (w.(txRouter := w.txRouter[id := w.txRouter[id].(stream := w.txRouter[id].stream.Send(m, wake))]), Ok(()))
  {
    NextKeeps(r, posting);
    PostingStarts(r, posting, id, token);
    TokenRouteKept(r.Next(posting), evs, id, token);
    ProgressFollowsRoute(From(r.Next(posting), evs).worker, id, token, progress, wake);
  }

  lemma ProgressFollowsRoute(w: Worker, id: HttpRequestId, token: RequestId, progress: string, wake: Wake)
    requires RoutesToken(w, id, token)
    ensures
      var m := Notification(Progress(token, progress));
      w.Step(FromHandler(m, wake)) ==
        (w.(txRouter := w.txRouter[id := w.txRouter[id].(stream := w.txRouter[id].stream.Send(m, wake))]), Ok(()))
  {
  }

  /** While a channel is not disturbed, a cancellation that the server sends for a
      request goes to it exactly if the request is owed there. */
  lemma CancellationReachesRequest(
    r: Run, evs: seq<SessionEvent>, id: HttpRequestId, requestId: RequestId, reason: Option<string>, wake: Wake)
    requires Inv(r) && ExactAt(r.worker, id)
    requires AllAdmissible(evs) && From(r, evs).established <= U64_LIMIT && Undisturbed(r, evs, id)
    requires id in From(r, evs).worker.txRouter
    ensures
      var w := From(r, evs).worker;
      var m := Notification(Cancelled(requestId, reason));
      var (w', answer) := w.Step(FromHandler(m, wake));
      if Owed(r.worker.txRouter[id].resources, ActsOf(evs), id, McpRequestId(requestId)) then
        && answer == Ok(())
        && w' == w.(txRouter := w.txRouter[id := w.txRouter[id].(stream := w.txRouter[id].stream.Send(m, wake))])
      else id in w'.txRouter && w'.txRouter[id] == w.txRouter[id]
  {
    ChannelStarts(r.worker, id);
    ChannelIsActs(r.worker.txRouter[id].resources, r, evs, id);
    assert Owed(r.worker.txRouter[id].resources, ActsOf(evs), id, McpRequestId(requestId)) <==>
      From(r, evs).worker.Lookup(McpRequestId(requestId)) == Some(id);
  }

  /** A request posted with a progress token on a new channel: its first progress
      notification is what the receiver of that channel finds, under index 0. */
  lemma FirstProgressArrives(
    r: Run, requestId: RequestId, token: RequestId, payload: string, progress: string, wake: Wake)
    requires Inv(r) && r.established < U64_LIMIT && r.worker.channelCapacity >= 1
    ensures
      var id := r.established;
      var posted := Opened(r).Next(ClientMessage(Request(requestId, RequestBody(Some(token), payload)), Some(id)));
      var m := Notification(Progress(token, progress));
      var w := posted.Next(FromHandler(m, wake)).worker;
      id in w.txRouter &&
      w.txRouter[id].stream.link == Link(r.worker.channelCapacity, [SessionMessage(EventIds.EventId(Some(id), 0), m)], true)
  {
    OpenedIsExact(r);
    var request := RequestBody(Some(token), payload);
    var open := Opened(r).worker;
    PostingRoutes(open, requestId, request, r.established);
    var posted := open.RegisterRequest(requestId, request, r.established);
    SendReaches(Link(r.worker.channelCapacity, [], true),
                SessionMessage(EventIds.EventId(Some(r.established), 0), Notification(Progress(token, progress))), wake);
    assert [] + [SessionMessage(EventIds.EventId(Some(r.established), 0), Notification(Progress(token, progress)))]
        == [SessionMessage(EventIds.EventId(Some(r.established), 0), Notification(Progress(token, progress)))];
  }
}
