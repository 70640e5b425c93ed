/** What every run of the service loop keeps, in any order of its racing events. */
module LoopRuns {
  import opened JsonRpc
  import opened ServiceLoop
  import Sequences

  // Batches

  /** The messages handled so far and the queued ones are the messages received,
      flattened, in order. */
  ghost predicate BatchesFlattened(s: System) {
    && s.core.handled + s.core.batch == FlattenAll(s.received)
    && (forall k :: 0 <= k < |s.core.batch| ==> !s.core.batch[k].IsBatch())
    && (forall k :: 0 <= k < |s.core.sent| ==> !s.core.sent[k].IsBatch())
  }

  lemma HandlePeerFlattens(c: Core, m: Message)
    requires c.batch == []
    ensures c.HandlePeer(m).handled + c.HandlePeer(m).batch == c.handled + m.Flattened()
    ensures forall k :: 0 <= k < |c.HandlePeer(m).batch| ==> !c.HandlePeer(m).batch[k].IsBatch()
    ensures c.HandlePeer(m).sent == c.sent
  {
    assert c.handled + [] == c.handled && [] + m.Flattened() == m.Flattened();
  }

  lemma TurnBatchFlattens(s: System)
    requires Enabled(s, TurnBatch) && BatchesFlattened(s)
    ensures BatchesFlattened(Take(s, TurnBatch))
  {
    HandleItem(s.core.(batch := s.core.batch[1..]), s.core.batch[0]);
    Sequences.MoveHead(s.core.handled, s.core.batch);
  }

  lemma TurnReceiveFlattens(s: System, m: Message)
    requires Enabled(s, TurnReceive(m)) && BatchesFlattened(s)
    ensures BatchesFlattened(Take(s, TurnReceive(m)))
  {
    HandlePeerFlattens(s.core, m);
    assert (s.received + [m])[..|s.received|] == s.received;
    assert s.core.handled + [] == s.core.handled;
  }

  /** What is sent now is what was sent before, or no batch. */
  ghost predicate SentNoBatch(before: seq<Message>, after: seq<Message>) {
    forall k :: 0 <= k < |after| ==> (k < |before| && after[k] == before[k]) || !after[k].IsBatch()
  }

  lemma ProxyFlattens(c: Core, sink: PeerSink)
    ensures SentNoBatch(c.sent, c.HandleProxy(sink).sent)
  {
  }

  lemma TurnOtherFlattens(c: Core, ev: Event)
    requires !ev.PeerMessage?
    ensures c.Handle(ev).handled == c.handled && c.Handle(ev).batch == c.batch
    ensures SentNoBatch(c.sent, c.Handle(ev).sent)
  {
    match ev
    case ProxyMessage(sink) => ProxyFlattens(c, sink);
    case ToSink(m) =>
    case SendTaskResult(task, failure) => SendTaskSame(c, task, failure);
  }

  lemma NextFlattens(s: System, step: Step)
    requires BatchesFlattened(s)
    ensures BatchesFlattened(Next(s, step))
  {
    if Enabled(s, step) {
      match step
      case TurnBatch => TurnBatchFlattens(s);
      case TurnReceive(m) => TurnReceiveFlattens(s, m);
      case TurnProxy => TurnOtherFlattens(s.core, ProxyMessage(s.peerQueue[0]));
      case TurnSink => TurnOtherFlattens(s.core, ToSink(s.sinkQueue[0]));
      case TurnSendTask(task, failure) => TurnOtherFlattens(s.core, SendTaskResult(task, failure));
      case _ =>
    }
  }

  /** Over every run: nothing received is lost, duplicated or reordered, and no
      batch is ever queued or sent. */
  lemma {:induction false} RunFlattens(first: nat, steps: seq<Step>)
    ensures BatchesFlattened(Exec(first, steps))
  {
    if steps != [] {
      RunFlattens(first, steps[..|steps| - 1]);
      NextFlattens(Exec(first, steps[..|steps| - 1]), steps[|steps| - 1]);
    }
  }

  function Turns(c: Core, choices: seq<Event>): Core
    decreases |choices|
  {
    if choices == [] then c else Turns(c.Turn(choices[0]), choices[1..])
  }

  /** A batch is drained with no other event in between, whatever is on offer. */
  lemma {:induction false} BatchDrained(c: Core, choices: seq<Event>)
    requires |choices| == |c.batch|
    requires forall k :: 0 <= k < |c.batch| ==> !c.batch[k].IsBatch()
    ensures Turns(c, choices) == HandleAll(c.(batch := []), c.batch)
    decreases |c.batch|
  {
    if c.batch != [] {
      var next := c.Turn(choices[0]);
      HandleItem(c.(batch := c.batch[1..]), c.batch[0]);
      HandlePeerIgnoresBatch(c, c.batch[1..], c.batch[0]);
      BatchDrained(next, choices[1..]);
    }
  }

  // Outgoing requests

  ghost function Answered(c: Core): set<Responder> {
    set k | 0 <= k < |c.answers| :: c.answers[k].responder
  }

  ghost function Places(s: System): set<Responder> {
    s.calling.Keys + Queued(s.peerQueue) + s.core.responderPool.Values + Answered(s.core) + s.core.dropped
  }

  /** Every id drawn is in exactly one place: with a caller, in the peer queue, in
      the pool, answered, or dropped. */
  ghost predicate OnePlace(s: System) {
    && s.calling.Keys !! Queued(s.peerQueue) !! s.core.responderPool.Values !! Answered(s.core) !! s.core.dropped
    && forall r: Responder :: r in Places(s) <==> s.first <= r < s.drawn
  }

  ghost predicate NoneTwice(s: System) {
    && (forall i, j :: 0 <= i < j < |s.peerQueue| && s.peerQueue[i].SinkRequest? && s.peerQueue[j].SinkRequest? ==>
          s.peerQueue[i].responder != s.peerQueue[j].responder)
    && (forall i, j :: 0 <= i < j < |s.core.answers| ==> s.core.answers[i].responder != s.core.answers[j].responder)
  }

  /** Requests travel, wait and are answered under their own id. */
  ghost predicate OwnIds(s: System) {
    && (forall k :: 0 <= k < |s.peerQueue| && s.peerQueue[k].SinkRequest? ==> s.peerQueue[k].id == IdOf(s.peerQueue[k].responder))
    && (forall id :: id in s.core.responderPool ==> id == IdOf(s.core.responderPool[id]))
    && (forall k :: 0 <= k < |s.core.answers| ==> s.core.answers[k].cause == IdOf(s.core.answers[k].responder))
  }

  /** Once the loop is gone nothing waits any more; before, only an id drawn a
      second time can have cost a request its responder. */
  ghost predicate Closing(s: System) {
    && s.first <= s.drawn
    && (s.quit.Some? ==> s.calling == map[] && s.peerQueue == [] && s.core.responderPool == map[])
    && (s.quit.None? && s.drawn <= U32_LIMIT ==> s.core.dropped == {})
  }

  ghost predicate RequestInv(s: System) {
    OnePlace(s) && NoneTwice(s) && OwnIds(s) && Closing(s)
  }

  lemma CallKeeps(s: System, request: RequestBody)
    requires RequestInv(s)
    ensures RequestInv(Take(s, Call(request)))
  {
    assert s.drawn !in Places(s);
    assert Places(Take(s, Call(request))) == Places(s) + {s.drawn};
  }

  lemma QueuedSnoc(q: seq<PeerSink>, sink: PeerSink)
    ensures Queued(q + [sink]) == Queued(q) + if sink.SinkRequest? then {sink.responder} else {}
  {
    assert forall k :: 0 <= k < |q| ==> (q + [sink])[k] == q[k];
    assert (q + [sink])[|q|] == sink;
  }

  lemma QueuedTail(q: seq<PeerSink>)
    requires q != []
    ensures Queued(q) == Queued(q[1..]) + if q[0].SinkRequest? then {q[0].responder} else {}
  {
    forall r | r in Queued(q) && !(q[0].SinkRequest? && q[0].responder == r) ensures r in Queued(q[1..]) {
      var k :| 0 <= k < |q| && q[k].SinkRequest? && q[k].responder == r;
      assert q[1..][k - 1] == q[k];
    }
    forall r | r in Queued(q[1..]) ensures r in Queued(q) {
      var k :| 0 <= k < |q[1..]| && q[1..][k].SinkRequest? && q[1..][k].responder == r;
      assert q[k + 1] == q[1..][k];
    }
  }

  lemma AnsweredSnoc(c: Core, c': Core, a: Answer)
    requires c'.answers == c.answers + [a]
    ensures Answered(c') == Answered(c) + {a.responder}
  {
    assert forall k :: 0 <= k < |c.answers| ==> c'.answers[k] == c.answers[k];
    assert c'.answers[|c.answers|] == a;
  }

  /** Under its own ids the pool holds each responder once. */
  lemma PoolRemove(pool: map<RequestId, Responder>, id: RequestId)
    requires id in pool && forall i :: i in pool ==> i == IdOf(pool[i])
    ensures (pool - {id}).Values == pool.Values - {pool[id]}
  {
    forall r | r in pool.Values && r != pool[id] ensures r in (pool - {id}).Values {
      var i :| i in pool && pool[i] == r;
      assert (pool - {id})[i] == r;
    }
    forall r | r in (pool - {id}).Values ensures r in pool.Values && r != pool[id] {
      var i :| i in pool - {id} && (pool - {id})[i] == r;
      assert pool[i] == r;
    }
  }

  lemma PoolInsert(pool: map<RequestId, Responder>, id: RequestId, r: Responder)
    requires forall i :: i in pool ==> i == IdOf(pool[i])
    ensures pool[id := r].Values == (pool.Values - if id in pool then {pool[id]} else {}) + {r}
  {
    var rest := pool - {id};
    if id in pool {
      PoolRemove(pool, id);
    } else {
      assert rest == pool;
    }
    var pool' := pool[id := r];
    assert pool'[id] == r;
    forall x | x in rest.Values ensures x in pool'.Values {
      var i :| i in rest && rest[i] == x;
      assert pool'[i] == x;
    }
    forall x | x in pool'.Values && x != r ensures x in rest.Values {
      var i :| i in pool' && pool'[i] == x;
      assert rest[i] == x;
    }
  }

  lemma EnqueueKeeps(s: System, r: Responder)
    requires RequestInv(s) && Enabled(s, Enqueue(r))
    ensures RequestInv(Take(s, Enqueue(r)))
  {
    QueuedSnoc(s.peerQueue, SinkRequest(r, IdOf(r), s.calling[r]));
    assert Places(Take(s, Enqueue(r))) == Places(s);
  }

  lemma NotifyKeeps(s: System, notification: NotificationBody)
    requires RequestInv(s) && Enabled(s, Notify(notification))
    ensures RequestInv(Take(s, Notify(notification)))
  {
    QueuedSnoc(s.peerQueue, SinkNotification(notification));
    assert Places(Take(s, Notify(notification))) == Places(s);
  }

  /** Changes that concern no outgoing request. */
  ghost predicate SameRequests(c: Core, c': Core) {
    c'.responderPool == c.responderPool && c'.answers == c.answers && c'.dropped == c.dropped
  }

  lemma SameRequestsKeeps(s: System, s': System)
    requires RequestInv(s) && SameRequests(s.core, s'.core)
    requires s'.first == s.first && s'.drawn == s.drawn && s'.calling == s.calling
    requires s'.peerQueue == s.peerQueue && s'.quit == s.quit
    ensures RequestInv(s')
  {
    assert Answered(s'.core) == Answered(s.core);
    assert Places(s') == Places(s);
  }

  /** Answering moves a request from the pool to the answered. */
  lemma ResolveKeeps(s: System, id: RequestId, outcome: Outcome)
    requires RequestInv(s)
    ensures RequestInv(s.(core := s.core.Resolve(id, outcome)))
  {
    var s' := s.(core := s.core.Resolve(id, outcome));
    if id in s.core.responderPool {
      PoolRemove(s.core.responderPool, id);
      AnsweredSnoc(s.core, s'.core, Answer(s.core.responderPool[id], id, outcome));
      assert s.core.responderPool[id] in s.core.responderPool.Values;
      assert Places(s') == Places(s);
    }
  }

  /** The loop takes a request over from the peer queue; a responder already
      waiting under the same id loses its place. */
  lemma ProxyRequestKeeps(s: System)
    requires RequestInv(s) && Enabled(s, TurnProxy) && s.peerQueue[0].SinkRequest?
    ensures RequestInv(Take(s, TurnProxy))
  {
    var s' := Take(s, TurnProxy);
    var id, r := s.peerQueue[0].id, s.peerQueue[0].responder;
    PoolInsert(s.core.responderPool, id, r);
    ProxyOnePlace(s, s', id, r);
    ProxyRest(s, s', id, r);
    RequestIsQueued(s);
  }

  /** The next request in the peer queue is none of those answered, so its id,
      while ids are fresh, is not in the pool. */
  lemma RequestIsQueued(s: System)
    requires RequestInv(s) && s.peerQueue != [] && s.peerQueue[0].SinkRequest?
    ensures
      var r := s.peerQueue[0].responder;
      && s.first <= r < s.drawn && r !in s.core.responderPool.Values
      && (s.peerQueue[0].id in s.core.responderPool ==> U32_LIMIT < s.drawn)
  {
    var r, id := s.peerQueue[0].responder, s.peerQueue[0].id;
    assert r in Queued(s.peerQueue) && r in Places(s);
    if id in s.core.responderPool {
      var q := s.core.responderPool[id];
      assert q in s.core.responderPool.Values && q in Places(s);
    }
  }

  lemma ProxyRest(s: System, s': System, id: RequestId, r: Responder)
    requires NoneTwice(s) && OwnIds(s)
    requires s.peerQueue != [] && s.peerQueue[0].SinkRequest? && s.peerQueue[0].responder == r && s.peerQueue[0].id == id
    requires s'.peerQueue == s.peerQueue[1..]
    requires s'.core.responderPool == s.core.responderPool[id := r] && s'.core.answers == s.core.answers
    ensures NoneTwice(s') && OwnIds(s')
  {
    assert forall k :: 0 <= k < |s'.peerQueue| ==> s'.peerQueue[k] == s.peerQueue[k + 1];
  }

  lemma ProxyOnePlace(s: System, s': System, id: RequestId, r: Responder)
    requires OnePlace(s) && NoneTwice(s)
    requires s.peerQueue != [] && s.peerQueue[0].SinkRequest? && s.peerQueue[0].responder == r
    requires s' == s.(core := s'.core, peerQueue := s.peerQueue[1..])
    requires s'.core.responderPool.Values
      == (s.core.responderPool.Values - if id in s.core.responderPool then {s.core.responderPool[id]} else {}) + {r}
    requires s'.core.dropped == s.core.dropped + if id in s.core.responderPool then {s.core.responderPool[id]} else {}
    requires s'.core.answers == s.core.answers
    ensures OnePlace(s')
  {
    QueuedTail(s.peerQueue);
    assert id in s.core.responderPool ==> s.core.responderPool[id] in s.core.responderPool.Values;
    assert Answered(s'.core) == Answered(s.core);
    assert r !in Queued(s'.peerQueue) by {
      assert forall k :: 0 <= k < |s'.peerQueue| ==> s'.peerQueue[k] == s.peerQueue[k + 1];
    }
    assert Places(s') == Places(s);
  }

  lemma ProxyNotificationKeeps(s: System)
    requires RequestInv(s) && Enabled(s, TurnProxy) && s.peerQueue[0].SinkNotification?
    ensures RequestInv(Take(s, TurnProxy))
  {
    var s' := Take(s, TurnProxy);
    QueuedTail(s.peerQueue);
    assert Answered(s'.core) == Answered(s.core);
    assert forall k :: 0 <= k < |s'.peerQueue| ==> s'.peerQueue[k] == s.peerQueue[k + 1];
    assert Places(s') == Places(s);
  }

  lemma QuitKeeps(s: System, reason: QuitReason)
    requires RequestInv(s) && Enabled(s, Quit(reason))
    ensures RequestInv(Take(s, Quit(reason)))
  {
    var s' := Take(s, Quit(reason));
    assert s'.core.responderPool.Values == {} && Queued(s'.peerQueue) == {} && s'.calling.Keys == {};
    assert Answered(s'.core) == Answered(s.core);
    assert Places(s') == Places(s);
  }

  lemma HandlePeerKeeps(s: System, m: Message)
    requires RequestInv(s)
    ensures RequestInv(s.(core := s.core.HandlePeer(m)))
  {
    match m
    case Response(id, result) =>
      SameRequestsKeeps(s, s.(core := s.core.(handled := s.core.handled + [m])));
      ResolveKeeps(s.(core := s.core.(handled := s.core.handled + [m])), id, Replied(result));
    case Error(id, error) =>
      SameRequestsKeeps(s, s.(core := s.core.(handled := s.core.handled + [m])));
      ResolveKeeps(s.(core := s.core.(handled := s.core.handled + [m])), id, McpError(error));
    case _ => SameRequestsKeeps(s, s.(core := s.core.HandlePeer(m)));
  }

  lemma SendTaskKeeps(s: System, task: SendTask, failure: Option<string>)
    requires RequestInv(s)
    ensures RequestInv(s.(core := s.core.HandleSendTask(task, failure)))
  {
    var s' := s.(core := s.core.(sendTasks := s.core.sendTasks - multiset{task}));
    SameRequestsKeeps(s, s');
    match task
    case RequestTask(id) =>
      if failure.Some? {
        ResolveKeeps(s', id, TransportSend(failure.value));
      }
    case NotificationTask(Cancelled(id, reason)) => ResolveKeeps(s', id, CancelledBy(reason));
    case NotificationTask(_) =>
  }

  lemma NextKeepsRequests(s: System, step: Step)
    requires RequestInv(s)
    ensures RequestInv(Next(s, step)) && Next(s, step).first == s.first
  {
    if Enabled(s, step) {
      var s' := Take(s, step);
      match step
      case Call(request) => CallKeeps(s, request);
      case Enqueue(r) => EnqueueKeeps(s, r);
      case Notify(notification) => NotifyKeeps(s, notification);
      case HandlerDone(_, _) => SameRequestsKeeps(s, s');
      case TurnBatch =>
        var c := s.core.(batch := s.core.batch[1..]);
        SameRequestsKeeps(s, s.(core := c));
        HandlePeerKeeps(s.(core := c), s.core.batch[0]);
        SameRequestsKeeps(s.(core := s'.core), s');
      case TurnReceive(m) =>
        HandlePeerKeeps(s, m);
        SameRequestsKeeps(s.(core := s'.core), s');
      case TurnProxy => if s.peerQueue[0].SinkRequest? { ProxyRequestKeeps(s); } else { ProxyNotificationKeeps(s); }
      case TurnSink => SameRequestsKeeps(s, s');
      case TurnSendTask(task, failure) =>
        SendTaskKeeps(s, task, failure);
        SameRequestsKeeps(s.(core := s'.core), s');
      case Quit(reason) => QuitKeeps(s, reason);
    }
  }

  /** Over every run each request is in one place, is answered at most once and
      under its own id, and nothing waits once the loop is gone. */
  lemma {:induction false} RunKeepsRequests(first: nat, steps: seq<Step>)
    ensures RequestInv(Exec(first, steps)) && Exec(first, steps).first == first
  {
    if steps != [] {
      RunKeepsRequests(first, steps[..|steps| - 1]);
      NextKeepsRequests(Exec(first, steps[..|steps| - 1]), steps[|steps| - 1]);
    }
  }

  /** The answers given once a verdict is in: one more, if its request waits in the pool. */
  function Told(c: Core, verdict: Option<(RequestId, Outcome)>): seq<Answer> {
    if verdict.Some? && verdict.value.0 in c.responderPool then
      c.answers + [Answer(c.responderPool[verdict.value.0], verdict.value.0, verdict.value.1)]
    else c.answers
  }

  function ReplyVerdict(m: Message): Option<(RequestId, Outcome)> {
    match m
    case Response(id, result) => Some((id, Replied(result)))
    case Error(id, error) => Some((id, McpError(error)))
    case _ => None
  }

  function SendVerdict(task: SendTask, failure: Option<string>): Option<(RequestId, Outcome)> {
    match task
    case RequestTask(id) => if failure.Some? then Some((id, TransportSend(failure.value))) else None
    case NotificationTask(Cancelled(id, reason)) => Some((id, CancelledBy(reason)))
    case NotificationTask(_) => None
  }

  /** The request this step speaks about, and what its caller is to be told: the
      peer's result or error, a failed send, or a cancellation that was sent. */
  function Verdict(s: System, step: Step): Option<(RequestId, Outcome)> {
    match step
    case TurnBatch => if s.core.batch == [] then None else ReplyVerdict(s.core.batch[0])
    case TurnReceive(m) => ReplyVerdict(m)
    case TurnSendTask(task, failure) => SendVerdict(task, failure)
    case _ => None
  }

  lemma PeerAnswers(c: Core, m: Message)
    ensures c.HandlePeer(m).answers == Told(c, ReplyVerdict(m))
  {
  }

  lemma SendTaskAnswers(c: Core, task: SendTask, failure: Option<string>)
    ensures c.HandleSendTask(task, failure).answers == Told(c, SendVerdict(task, failure))
  {
  }

  lemma OtherAnswers(c: Core, ev: Event)
    requires ev.ProxyMessage? || ev.ToSink?
    ensures c.Handle(ev).answers == c.answers
  {
  }

  /** Whichever verdict comes first answers the request, and only while it waits
      in the pool: a second verdict, or one on an unknown id, tells nobody. */
  lemma FirstVerdictAnswers(s: System, step: Step)
    ensures Next(s, step).core.answers == if Enabled(s, step) then Told(s.core, Verdict(s, step)) else s.core.answers
  {
    if Enabled(s, step) {
      match step
      case TurnBatch => PeerAnswers(s.core.(batch := s.core.batch[1..]), s.core.batch[0]);
      case TurnReceive(m) => PeerAnswers(s.core, m);
      case TurnSendTask(task, failure) => SendTaskAnswers(s.core, task, failure);
      case TurnProxy => OtherAnswers(s.core, ProxyMessage(s.peerQueue[0]));
      case TurnSink => OtherAnswers(s.core, ToSink(s.sinkQueue[0]));
      case _ =>
    }
  }

  // Outgoing messages

  /** The messages sent that are not replies, in order. */
  function Proxied(sent: seq<Message>): seq<Message> {
    if sent == [] then []
    else Proxied(sent[..|sent| - 1]) + if sent[|sent| - 1].IsReply() then [] else [sent[|sent| - 1]]
  }

  lemma ProxiedSnoc(sent: seq<Message>, m: Message)
    ensures Proxied(sent + [m]) == Proxied(sent) + if m.IsReply() then [] else [m]
  {
    assert (sent + [m])[..|sent|] == sent;
  }

  function MessagesOf(sinks: seq<PeerSink>): (ms: seq<Message>)
    ensures |ms| == |sinks|
  {
    seq(|sinks|, k requires 0 <= k < |sinks| => sinks[k].ToMessage())
  }

  /** What callers enqueued is sent in that order, each once; the end of the loop
      drops what is still queued. */
  ghost predicate SentInOrder(s: System) {
    && Proxied(s.core.sent) + MessagesOf(s.peerQueue) <= MessagesOf(s.enqueued)
    && (s.quit.None? ==> Proxied(s.core.sent) + MessagesOf(s.peerQueue) == MessagesOf(s.enqueued))
  }

  lemma EnqueuedInOrder(s: System, s': System, sink: PeerSink)
    requires SentInOrder(s) && s.quit.None? && s'.core == s.core && s'.quit == s.quit
    requires s'.peerQueue == s.peerQueue + [sink] && s'.enqueued == s.enqueued + [sink]
    ensures SentInOrder(s')
  {
    assert MessagesOf(s'.peerQueue) == MessagesOf(s.peerQueue) + [sink.ToMessage()];
    assert MessagesOf(s'.enqueued) == MessagesOf(s.enqueued) + [sink.ToMessage()];
  }

  lemma ProxySends(c: Core, sink: PeerSink)
    ensures c.HandleProxy(sink).sent == c.sent + [sink.ToMessage()]
  {
  }

  lemma TurnProxyInOrder(s: System)
    requires SentInOrder(s) && Enabled(s, TurnProxy)
    ensures SentInOrder(Take(s, TurnProxy))
  {
    var s' := Take(s, TurnProxy);
    ProxySends(s.core, s.peerQueue[0]);
    ProxiedSnoc(s.core.sent, s.peerQueue[0].ToMessage());
    assert MessagesOf(s'.peerQueue) == MessagesOf(s.peerQueue)[1..];
    Sequences.MoveHead(Proxied(s.core.sent), MessagesOf(s.peerQueue));
  }

  lemma SameSentInOrder(s: System, s': System)
    requires SentInOrder(s) && Proxied(s'.core.sent) == Proxied(s.core.sent) && s'.quit == s.quit
    requires s'.peerQueue == s.peerQueue && s'.enqueued == s.enqueued
    ensures SentInOrder(s')
  {
  }

  lemma HandlePeerSendsNothing(c: Core, m: Message)
    ensures c.HandlePeer(m).sent == c.sent
  {
  }

  lemma NextInOrder(s: System, step: Step)
    requires SentInOrder(s)
    ensures SentInOrder(Next(s, step))
  {
    if Enabled(s, step) {
      var s' := Take(s, step);
      match step
      case Enqueue(r) => EnqueuedInOrder(s, s', SinkRequest(r, IdOf(r), s.calling[r]));
      case Notify(notification) => EnqueuedInOrder(s, s', SinkNotification(notification));
      case TurnProxy => TurnProxyInOrder(s);
      case TurnSink =>
        ProxiedSnoc(s.core.sent, s.sinkQueue[0]);
        SameSentInOrder(s, s');
      case TurnBatch =>
        HandlePeerSendsNothing(s.core.(batch := s.core.batch[1..]), s.core.batch[0]);
        SameSentInOrder(s, s');
      case TurnReceive(m) =>
        HandlePeerSendsNothing(s.core, m);
        SameSentInOrder(s, s');
      case TurnSendTask(task, failure) =>
        SendTaskSame(s.core, task, failure);
        SameSentInOrder(s, s');
      case Quit(_) => assert MessagesOf([]) == [];
      case _ => SameSentInOrder(s, s');
    }
  }

  /** Over every run the requests and notifications passed to the transport are
      those that got into the peer queue, in order, nothing lost while the loop runs. */
  lemma {:induction false} RunSendsInOrder(first: nat, steps: seq<Step>)
    ensures SentInOrder(Exec(first, steps))
  {
    if steps != [] {
      RunSendsInOrder(first, steps[..|steps| - 1]);
      NextInOrder(Exec(first, steps[..|steps| - 1]), steps[|steps| - 1]);
    }
  }

  // What was asked for

  /** What the caller that drew this id asked for. */
  function Asked(first: nat, steps: seq<Step>, r: Responder): Option<RequestBody> {
    if steps == [] then None
    else
      var n := |steps| - 1;
      match steps[n]
      case Call(request) => if Exec(first, steps[..n]).drawn == r then Some(request) else Asked(first, steps[..n], r)
      case _ => Asked(first, steps[..n], r)
  }

  /** What got into the peer queue, in order: requests as asked for, under their own
      ids, and notifications. */
  function Queueings(first: nat, steps: seq<Step>): seq<Option<Message>> {
    if steps == [] then []
    else
      var n := |steps| - 1;
      Queueings(first, steps[..n]) +
      if !Enabled(Exec(first, steps[..n]), steps[n]) then []
      else match steps[n]
        case Enqueue(r) =>
          (match Asked(first, steps[..n], r)
           case Some(request) => [Some(Request(Number(r % U32_LIMIT), request))]
           case None => [None])
        case Notify(notification) => [Some(Notification(notification))]
        case _ => []
  }

  ghost predicate CallingAsAsked(s: System, first: nat, steps: seq<Step>) {
    && (forall r :: r in s.calling ==> r < s.drawn && Asked(first, steps, r) == Some(s.calling[r]))
    && |MessagesOf(s.enqueued)| == |Queueings(first, steps)|
    && forall k :: 0 <= k < |s.enqueued| ==> Queueings(first, steps)[k] == Some(MessagesOf(s.enqueued)[k])
  }

  lemma NextAsAsked(first: nat, steps: seq<Step>)
    requires steps != [] && CallingAsAsked(Exec(first, steps[..|steps| - 1]), first, steps[..|steps| - 1])
    ensures CallingAsAsked(Exec(first, steps), first, steps)
  {
    var n := |steps| - 1;
    var s, s', step := Exec(first, steps[..n]), Exec(first, steps), steps[n];
    assert s' == Next(s, step);
    if step.Call? || step.Enqueue? || step.Notify? {
      QueueStep(s, s', step, first, steps);
    } else {
      RestQueues(s, step);
      assert Queueings(first, steps) == Queueings(first, steps[..n]);
    }
  }

  lemma RestQueues(s: System, step: Step)
    requires !step.Call? && !step.Enqueue? && !step.Notify?
    ensures Next(s, step).enqueued == s.enqueued && Next(s, step).drawn == s.drawn
    ensures Next(s, step).calling == s.calling || Next(s, step).calling == map[]
  {
  }

  lemma QueueStep(s: System, s': System, step: Step, first: nat, steps: seq<Step>)
    requires steps != [] && step == steps[|steps| - 1] && s == Exec(first, steps[..|steps| - 1]) && s' == Next(s, step)
    requires step.Call? || step.Enqueue? || step.Notify?
    requires CallingAsAsked(s, first, steps[..|steps| - 1])
    ensures CallingAsAsked(s', first, steps)
  {
  }

  /** Over every run what got into the peer queue is what callers asked for. */
  lemma {:induction false} RunAsAsked(first: nat, steps: seq<Step>)
    ensures CallingAsAsked(Exec(first, steps), first, steps)
  {
    if steps != [] {
      RunAsAsked(first, steps[..|steps| - 1]);
      NextAsAsked(first, steps);
    }
  }

  /** So each request or notification passed to the transport is, in order, what a
      caller asked for, under the id it drew. */
  lemma SentAsAsked(first: nat, steps: seq<Step>, k: nat)
    requires k < |Proxied(Exec(first, steps).core.sent)|
    ensures k < |Queueings(first, steps)| && Queueings(first, steps)[k] == Some(Proxied(Exec(first, steps).core.sent)[k])
  {
    var s := Exec(first, steps);
    RunAsAsked(first, steps);
    RunSendsInOrder(first, steps);
    assert (Proxied(s.core.sent) + MessagesOf(s.peerQueue))[k] == Proxied(s.core.sent)[k];
  }

  // Sends under way

  /** The send that a message passed to the transport starts. */
  function SendOf(m: Message): multiset<SendTask> {
    match m
    case Request(id, _) => multiset{RequestTask(id)}
    case Notification(notification) => multiset{NotificationTask(notification)}
    case _ => multiset{}
  }

  function SendsOf(ms: seq<Message>): multiset<SendTask> {
    if ms == [] then multiset{} else SendsOf(ms[..|ms| - 1]) + SendOf(ms[|ms| - 1])
  }

  function SendsDone(first: nat, steps: seq<Step>): multiset<SendTask> {
    if steps == [] then multiset{}
    else
      var n := |steps| - 1;
      SendsDone(first, steps[..n]) +
      match steps[n]
      case TurnSendTask(task, _) => if Enabled(Exec(first, steps[..n]), steps[n]) then multiset{task} else multiset{}
      case _ => multiset{}
  }

  lemma SendsSnoc(ms: seq<Message>, m: Message)
    ensures SendsOf(ms + [m]) == SendsOf(ms) + SendOf(m)
  {
    assert (ms + [m])[..|ms|] == ms;
  }

  lemma ProxyStartsSend(c: Core, sink: PeerSink)
    ensures c.HandleProxy(sink).sendTasks == c.sendTasks + SendOf(sink.ToMessage())
    ensures SendsOf(c.HandleProxy(sink).sent) == SendsOf(c.sent) + SendOf(sink.ToMessage())
  {
    ProxySends(c, sink);
    SendsSnoc(c.sent, sink.ToMessage());
  }

  lemma SendTaskEnds(c: Core, task: SendTask, failure: Option<string>)
    ensures c.HandleSendTask(task, failure).sendTasks == c.sendTasks - multiset{task}
    ensures c.HandleSendTask(task, failure).sent == c.sent
  {
  }

  lemma ReplyStartsNone(c: Core, m: Message)
    ensures c.HandleToSink(m).sendTasks == c.sendTasks && SendsOf(c.HandleToSink(m).sent) == SendsOf(c.sent)
  {
    if m.IsReply() {
      SendsSnoc(c.sent, m);
    }
  }

  lemma PeerStartsNone(c: Core, m: Message)
    ensures c.HandlePeer(m).sendTasks == c.sendTasks && c.HandlePeer(m).sent == c.sent
  {
  }

  ghost predicate SendsKept(c: Core, done: multiset<SendTask>) {
    SendsOf(c.sent) == c.sendTasks + done
  }

  lemma SameSendsKept(c: Core, c': Core, done: multiset<SendTask>)
    requires SendsKept(c, done) && c'.sendTasks == c.sendTasks && SendsOf(c'.sent) == SendsOf(c.sent)
    ensures SendsKept(c', done + multiset{})
  {
  }

  lemma StartedSendsKept(c: Core, c': Core, more: multiset<SendTask>, done: multiset<SendTask>)
    requires SendsKept(c, done) && c'.sendTasks == c.sendTasks + more && SendsOf(c'.sent) == SendsOf(c.sent) + more
    ensures SendsKept(c', done + multiset{})
  {
  }

  lemma EndedSendsKept(c: Core, c': Core, task: SendTask, done: multiset<SendTask>)
    requires SendsKept(c, done) && task in c.sendTasks
    requires c'.sendTasks == c.sendTasks - multiset{task} && c'.sent == c.sent
    ensures SendsKept(c', done + multiset{task})
  {
  }

  lemma PeerTurnStartsNone(s: System, step: Step)
    requires Enabled(s, step) && (step.TurnBatch? || step.TurnReceive?)
    ensures Take(s, step).core.sendTasks == s.core.sendTasks && Take(s, step).core.sent == s.core.sent
  {
    if step.TurnBatch? {
      PeerStartsNone(s.core.(batch := s.core.batch[1..]), s.core.batch[0]);
    } else {
      PeerStartsNone(s.core, step.message);
    }
  }

  lemma TakeKeepsSends(s: System, step: Step, done: multiset<SendTask>)
    requires Enabled(s, step) && SendsKept(s.core, done)
    ensures SendsKept(Take(s, step).core, done + if step.TurnSendTask? then multiset{step.task} else multiset{})
  {
    var c, c' := s.core, Take(s, step).core;
    if step.TurnProxy? {
      ProxyStartsSend(c, s.peerQueue[0]);
      StartedSendsKept(c, c', SendOf(s.peerQueue[0].ToMessage()), done);
    } else if step.TurnSendTask? {
      SendTaskEnds(c, step.task, step.failure);
      EndedSendsKept(c, c', step.task, done);
    } else {
      OtherStartsNone(s, step);
      SameSendsKept(c, c', done);
    }
  }

  lemma OtherStartsNone(s: System, step: Step)
    requires Enabled(s, step) && !step.TurnProxy? && !step.TurnSendTask?
    ensures Take(s, step).core.sendTasks == s.core.sendTasks && SendsOf(Take(s, step).core.sent) == SendsOf(s.core.sent)
  {
    if step.TurnBatch? || step.TurnReceive? {
      PeerTurnStartsNone(s, step);
    } else if step.TurnSink? {
      ReplyStartsNone(s.core, s.sinkQueue[0]);
    } else {
      RestStartsNone(s, step);
    }
  }

  lemma RestStartsNone(s: System, step: Step)
    requires Enabled(s, step)
    requires step.Call? || step.Enqueue? || step.Notify? || step.HandlerDone? || step.Quit?
    ensures Take(s, step).core.sendTasks == s.core.sendTasks && Take(s, step).core.sent == s.core.sent
  {
  }

  /** Over every run each request and notification passed to the transport has one
      send, which is under way or has ended: so each can still fail and be told. */
  lemma {:induction false} RunKeepsSends(first: nat, steps: seq<Step>)
    ensures SendsKept(Exec(first, steps).core, SendsDone(first, steps))
  {
    if steps != [] {
      var n := |steps| - 1;
      RunKeepsSends(first, steps[..n]);
      if Enabled(Exec(first, steps[..n]), steps[n]) {
        TakeKeepsSends(Exec(first, steps[..n]), steps[n], SendsDone(first, steps[..n]));
      }
    }
  }

  // Incoming requests

  /** The replies among the messages sent, in order. */
  function Replies(sent: seq<Message>): seq<Message> {
    if sent == [] then []
    else Replies(sent[..|sent| - 1]) + if sent[|sent| - 1].IsReply() then [sent[|sent| - 1]] else []
  }

  lemma RepliesSnoc(sent: seq<Message>, m: Message)
    ensures Replies(sent + [m]) == Replies(sent) + if m.IsReply() then [m] else []
  {
    assert (sent + [m])[..|sent|] == sent;
  }

  function ReplyLog(finished: seq<Finished>): seq<Message> {
    seq(|finished|, k requires 0 <= k < |finished| => finished[k].reply)
  }

  ghost function Tokens(finished: seq<Finished>): set<Token> {
    set k | 0 <= k < |finished| :: finished[k].token
  }

  /** Every request handled has one handler, which is running or has produced one
      reply under the request's id; the replies leave in the order they were made. */
  ghost predicate OneReplyEach(s: System) {
    && s.handlers !! Tokens(s.finished)
    && (forall t: Token :: t in s.handlers + Tokens(s.finished) <==> t < |s.core.requests|)
    && (forall i, j :: 0 <= i < j < |s.finished| ==> s.finished[i].token != s.finished[j].token)
    && (forall k :: 0 <= k < |s.finished| ==>
          s.finished[k].token < |s.core.requests| && s.finished[k].reply.IsReply()
          && s.finished[k].reply.id == s.core.requests[s.finished[k].token])
    && Replies(s.core.sent) + s.sinkQueue == ReplyLog(s.finished)
  }

  ghost function AllTokens(c: Core): set<Token> {
    c.ctPool.Values + c.cancelledByPeer + c.cancelledByReply + c.orphaned
  }

  /** Every token is in the pool under its request's id, cancelled, or orphaned. */
  ghost predicate TokensKept(c: Core) {
    && (forall id :: id in c.ctPool ==> c.ctPool[id] < |c.requests| && c.requests[c.ctPool[id]] == id)
    && c.ctPool.Values !! c.cancelledByPeer !! c.cancelledByReply !! c.orphaned
    && (forall t: Token :: t in AllTokens(c) <==> t < |c.requests|)
  }

  lemma CtRemove(pool: map<RequestId, Token>, requests: seq<RequestId>, id: RequestId)
    requires id in pool && forall i :: i in pool ==> pool[i] < |requests| && requests[pool[i]] == i
    ensures (pool - {id}).Values == pool.Values - {pool[id]}
  {
    forall t | t in pool.Values && t != pool[id] ensures t in (pool - {id}).Values {
      var i :| i in pool && pool[i] == t;
      assert (pool - {id})[i] == t;
    }
    forall t | t in (pool - {id}).Values ensures t in pool.Values && t != pool[id] {
      var i :| i in pool - {id} && (pool - {id})[i] == t;
      assert pool[i] == t;
    }
  }

  lemma CtInsert(pool: map<RequestId, Token>, requests: seq<RequestId>, id: RequestId, t: Token)
    requires forall i :: i in pool ==> pool[i] < |requests| && requests[pool[i]] == i
    ensures pool[id := t].Values == (pool.Values - if id in pool then {pool[id]} else {}) + {t}
  {
    var rest, pool' := pool - {id}, pool[id := t];
    if id in pool {
      CtRemove(pool, requests, id);
    } else {
      assert rest == pool;
    }
    assert pool'[id] == t;
    forall x | x in rest.Values ensures x in pool'.Values {
      var i :| i in rest && rest[i] == x;
      assert pool'[i] == x;
    }
    forall x | x in pool'.Values && x != t ensures x in rest.Values {
      var i :| i in pool' && pool'[i] == x;
      assert rest[i] == x;
    }
  }

  /** The ids of the requests among the messages handled, in order. */
  function RequestIds(handled: seq<Message>): seq<RequestId> {
    if handled == [] then []
    else
      var last := handled[|handled| - 1];
      RequestIds(handled[..|handled| - 1]) + if last.Request? then [last.id] else []
  }

  lemma HandlePeerStarts(c: Core, m: Message)
    requires c.requests == RequestIds(c.handled)
    ensures c.HandlePeer(m).requests == RequestIds(c.HandlePeer(m).handled)
  {
    assert (c.handled + [m])[..|c.handled|] == c.handled;
  }

  lemma NextStarts(s: System, step: Step)
    requires s.core.requests == RequestIds(s.core.handled)
    ensures Next(s, step).core.requests == RequestIds(Next(s, step).core.handled)
  {
    if Enabled(s, step) {
      match step
      case TurnBatch => HandlePeerStarts(s.core.(batch := s.core.batch[1..]), s.core.batch[0]);
      case TurnReceive(m) => HandlePeerStarts(s.core, m);
      case TurnProxy => TurnOtherFlattens(s.core, ProxyMessage(s.peerQueue[0]));
      case TurnSink => TurnOtherFlattens(s.core, ToSink(s.sinkQueue[0]));
      case TurnSendTask(task, failure) =>
        TurnOtherFlattens(s.core, SendTaskResult(task, failure));
        SendTaskSame(s.core, task, failure);
      case _ =>
    }
  }

  /** Over every run each request handled, in a batch or not, is given to a handler. */
  lemma {:induction false} RunStartsHandlers(first: nat, steps: seq<Step>)
    ensures Exec(first, steps).core.requests == RequestIds(Exec(first, steps).core.handled)
  {
    if steps != [] {
      RunStartsHandlers(first, steps[..|steps| - 1]);
      NextStarts(Exec(first, steps[..|steps| - 1]), steps[|steps| - 1]);
    }
  }

  lemma {:induction false} RequestIdsAppend(ms: seq<Message>, more: seq<Message>)
    ensures RequestIds(ms + more) == RequestIds(ms) + RequestIds(more)
    decreases |more|
  {
    if more == [] {
      assert ms + more == ms;
    } else {
      var n := |more| - 1;
      RequestIdsAppend(ms, more[..n]);
      Sequences.AppendSnoc(ms, more);
      Sequences.AppendAppend(RequestIds(ms), RequestIds(more[..n]), if more[n].Request? then [more[n].id] else []);
    }
  }

  /** Over every run the requests received, in batches or not, are those given to
      handlers, in order, and then those still in the batch queue. */
  lemma RequestsReachHandlers(first: nat, steps: seq<Step>)
    ensures
      var s := Exec(first, steps);
      s.core.requests + RequestIds(s.core.batch) == RequestIds(FlattenAll(s.received))
  {
    var s := Exec(first, steps);
    RunStartsHandlers(first, steps);
    RunFlattens(first, steps);
    RequestIdsAppend(s.core.handled, s.core.batch);
  }

  /** Changes that concern no incoming request. */
  ghost predicate SameIncoming(c: Core, c': Core) {
    && c'.ctPool == c.ctPool && c'.requests == c.requests && c'.orphaned == c.orphaned
    && c'.cancelledByPeer == c.cancelledByPeer && c'.cancelledByReply == c.cancelledByReply
  }

  lemma SendTaskSame(c: Core, task: SendTask, failure: Option<string>)
    ensures SameIncoming(c, c.HandleSendTask(task, failure)) && c.HandleSendTask(task, failure).sent == c.sent
  {
  }

  lemma ProxySame(c: Core, sink: PeerSink)
    ensures SameIncoming(c, c.HandleProxy(sink))
  {
  }

  lemma SameTokensKeeps(c: Core, c': Core)
    requires TokensKept(c) && SameIncoming(c, c')
    ensures TokensKept(c')
  {
    assert AllTokens(c') == AllTokens(c);
  }

  lemma RequestKeepsTokens(c: Core, c': Core, id: RequestId)
    requires TokensKept(c)
    requires c'.ctPool == c.ctPool[id := |c.requests|] && c'.requests == c.requests + [id]
    requires c'.orphaned == c.orphaned + if id in c.ctPool then {c.ctPool[id]} else {}
    requires c'.cancelledByPeer == c.cancelledByPeer && c'.cancelledByReply == c.cancelledByReply
    ensures TokensKept(c')
  {
    CtInsert(c.ctPool, c.requests, id, |c.requests|);
    assert |c.requests| !in AllTokens(c);
    assert id in c.ctPool ==> c.ctPool[id] in c.ctPool.Values;
    assert AllTokens(c') == AllTokens(c) + {|c.requests|};
  }

  lemma CancellationKeepsTokens(c: Core, c': Core, id: RequestId)
    requires TokensKept(c) && id in c.ctPool
    requires c'.ctPool == c.ctPool - {id} && c'.requests == c.requests && c'.orphaned == c.orphaned
    requires c'.cancelledByPeer == c.cancelledByPeer + {c.ctPool[id]} && c'.cancelledByReply == c.cancelledByReply
    ensures TokensKept(c')
  {
    CtRemove(c.ctPool, c.requests, id);
    assert c.ctPool[id] in c.ctPool.Values;
    assert AllTokens(c') == AllTokens(c);
  }

  lemma HandlePeerKeepsTokens(c: Core, m: Message)
    requires TokensKept(c)
    ensures TokensKept(c.HandlePeer(m))
  {
    if m.Request? {
      RequestKeepsTokens(c, c.HandlePeer(m), m.id);
    } else if m.Notification? && m.notification.Cancelled? && m.notification.requestId in c.ctPool {
      CancellationKeepsTokens(c, c.HandlePeer(m), m.notification.requestId);
    } else {
      SameTokensKeeps(c, c.HandlePeer(m));
    }
  }

  lemma HandleToSinkKeepsTokens(c: Core, m: Message)
    requires TokensKept(c)
    ensures TokensKept(c.HandleToSink(m))
  {
    if m.IsReply() && m.id in c.ctPool {
      CtRemove(c.ctPool, c.requests, m.id);
      assert c.ctPool[m.id] in c.ctPool.Values;
      assert AllTokens(c.HandleToSink(m)) == AllTokens(c);
    } else {
      SameTokensKeeps(c, c.HandleToSink(m));
    }
  }

  lemma NextKeepsTokens(s: System, step: Step)
    requires TokensKept(s.core)
    ensures TokensKept(Next(s, step).core)
  {
    if Enabled(s, step) {
      match step
      case TurnBatch =>
        SameTokensKeeps(s.core, s.core.(batch := s.core.batch[1..]));
        HandlePeerKeepsTokens(s.core.(batch := s.core.batch[1..]), s.core.batch[0]);
      case TurnReceive(m) => HandlePeerKeepsTokens(s.core, m);
      case TurnSink => HandleToSinkKeepsTokens(s.core, s.sinkQueue[0]);
      case TurnProxy =>
        ProxySame(s.core, s.peerQueue[0]);
        SameTokensKeeps(s.core, s.core.HandleProxy(s.peerQueue[0]));
      case TurnSendTask(task, failure) =>
        SendTaskSame(s.core, task, failure);
        SameTokensKeeps(s.core, s.core.HandleSendTask(task, failure));
      case _ => SameTokensKeeps(s.core, Take(s, step).core);
    }
  }

  /** Over every run no token is lost, except to a reused id. */
  lemma {:induction false} RunKeepsTokens(first: nat, steps: seq<Step>)
    ensures TokensKept(Exec(first, steps).core)
  {
    if steps != [] {
      RunKeepsTokens(first, steps[..|steps| - 1]);
      NextKeepsTokens(Exec(first, steps[..|steps| - 1]), steps[|steps| - 1]);
    }
  }

  lemma SameRepliesKeeps(s: System, s': System)
    requires OneReplyEach(s)
    requires s'.handlers == s.handlers && s'.finished == s.finished && s'.sinkQueue == s.sinkQueue
    requires s'.core.requests == s.core.requests && Replies(s'.core.sent) == Replies(s.core.sent)
    ensures OneReplyEach(s')
  {
  }

  /** A message received either changes nothing here or starts one handler. */
  lemma PeerKeepsReplies(s: System, c: Core, m: Message)
    requires OneReplyEach(s)
    requires c.requests == s.core.requests && c.sent == s.core.sent
    ensures OneReplyEach(s.(core := c.HandlePeer(m), handlers := s.handlers + Started(c, c.HandlePeer(m))))
  {
    if m.Request? {
      assert |s.core.requests| !in s.handlers + Tokens(s.finished);
    } else {
      assert s.handlers + {} == s.handlers;
    }
  }

  lemma HandlerDoneKeepsReplies(s: System, t: Token, result: Result<string, string>)
    requires OneReplyEach(s) && Enabled(s, HandlerDone(t, result))
    ensures OneReplyEach(Take(s, HandlerDone(t, result)))
  {
    var s' := Take(s, HandlerDone(t, result));
    var n := |s.finished|;
    assert forall k :: 0 <= k < n ==> s'.finished[k] == s.finished[k];
    assert s'.finished[n].token == t;
    assert Tokens(s'.finished) == Tokens(s.finished) + {t};
    assert s'.handlers + Tokens(s'.finished) == s.handlers + Tokens(s.finished);
    assert ReplyLog(s'.finished) == ReplyLog(s.finished) + [s'.finished[n].reply];
  }

  lemma TurnSinkKeepsReplies(s: System)
    requires OneReplyEach(s) && Enabled(s, TurnSink)
    ensures OneReplyEach(Take(s, TurnSink))
    ensures Replies(Take(s, TurnSink).core.sent) == Replies(s.core.sent) + [s.sinkQueue[0]]
  {
    var s' := Take(s, TurnSink);
    HeadReply(s);
    RepliesSnoc(s.core.sent, s.sinkQueue[0]);
    Sequences.MoveHead(Replies(s.core.sent), s.sinkQueue);
    assert s'.handlers == s.handlers;
  }

  lemma HeadReply(s: System)
    requires OneReplyEach(s) && s.sinkQueue != []
    ensures |Replies(s.core.sent)| < |s.finished| && s.sinkQueue[0] == s.finished[|Replies(s.core.sent)|].reply
  {
    assert (Replies(s.core.sent) + s.sinkQueue)[|Replies(s.core.sent)|] == s.sinkQueue[0];
  }

  lemma TurnProxyKeepsReplies(c: Core, sink: PeerSink)
    ensures Replies(c.HandleProxy(sink).sent) == Replies(c.sent) && c.HandleProxy(sink).requests == c.requests
  {
    match sink
    case SinkRequest(_, id, request) => RepliesSnoc(c.sent, Request(id, request));
    case SinkNotification(notification) => RepliesSnoc(c.sent, Notification(notification));
  }

  lemma NextKeepsReplies(s: System, step: Step)
    requires OneReplyEach(s)
    ensures OneReplyEach(Next(s, step))
  {
    if Enabled(s, step) {
      var s' := Take(s, step);
      match step
      case HandlerDone(t, result) => HandlerDoneKeepsReplies(s, t, result);
      case TurnBatch =>
        PeerKeepsReplies(s, s.core.(batch := s.core.batch[1..]), s.core.batch[0]);
      case TurnReceive(m) =>
        PeerKeepsReplies(s, s.core, m);
        SameRepliesKeeps(s'.(received := s.received), s');
      case TurnSink => TurnSinkKeepsReplies(s);
      case TurnProxy =>
        TurnProxyKeepsReplies(s.core, s.peerQueue[0]);
        AsideStepSame(s, step);
        SameRepliesKeeps(s, s');
      case _ =>
        AsideStepSame(s, step);
        SameRepliesKeeps(s, s');
    }
  }

  /** Over every run each request handled gets exactly one reply, cancelled or not. */
  lemma {:induction false} RunKeepsReplies(first: nat, steps: seq<Step>)
    ensures OneReplyEach(Exec(first, steps))
  {
    if steps != [] {
      RunKeepsReplies(first, steps[..|steps| - 1]);
      NextKeepsReplies(Exec(first, steps[..|steps| - 1]), steps[|steps| - 1]);
    }
  }

  // What the replies say

  /** The handlers that finished, in order, and what each produced. */
  function HandlersDone(first: nat, steps: seq<Step>): seq<(Token, Result<string, string>)> {
    if steps == [] then []
    else
      var n := |steps| - 1;
      HandlersDone(first, steps[..n]) +
      match steps[n]
      case HandlerDone(t, result) =>
        if Enabled(Exec(first, steps[..n]), steps[n]) then [(t, result)] else []
      case _ => []
  }

  /** The reply carries the id and the outcome: a response for a result, an error for an error. */
  ghost predicate Carries(reply: Message, id: RequestId, result: Result<string, string>) {
    && (forall r :: reply == Response(id, r) <==> result == Ok(r))
    && (forall e :: reply == Error(id, e) <==> result == Err(e))
  }

  ghost predicate RepliesCarry(s: System, done: seq<(Token, Result<string, string>)>) {
    && |s.finished| == |done|
    && forall k :: 0 <= k < |done| ==>
         && s.finished[k].token == done[k].0 && done[k].0 < |s.core.requests|
         && Carries(s.finished[k].reply, s.core.requests[done[k].0], done[k].1)
  }

  lemma DoneCarries(s: System, t: Token, result: Result<string, string>, done: seq<(Token, Result<string, string>)>)
    requires RepliesCarry(s, done) && Enabled(s, HandlerDone(t, result))
    ensures RepliesCarry(Take(s, HandlerDone(t, result)), done + [(t, result)])
  {
  }

  lemma RequestsGrow(s: System, step: Step)
    ensures s.core.requests <= Next(s, step).core.requests
    ensures !step.HandlerDone? ==> Next(s, step).finished == s.finished
  {
    if Enabled(s, step) {
      match step
      case TurnBatch =>
      case TurnReceive(_) =>
      case TurnSink =>
      case HandlerDone(_, _) =>
      case _ => AsideStepSame(s, step);
    }
  }

  lemma SameCarries(s: System, s': System, done: seq<(Token, Result<string, string>)>)
    requires RepliesCarry(s, done) && s'.finished == s.finished && s.core.requests <= s'.core.requests
    ensures RepliesCarry(s', done)
  {
  }

  /** Over every run each handler that finished made one reply, in order, which
      carries the id of its request and what it produced. */
  lemma {:induction false} RunRepliesCarry(first: nat, steps: seq<Step>)
    ensures RepliesCarry(Exec(first, steps), HandlersDone(first, steps))
  {
    if steps != [] {
      var n := |steps| - 1;
      var s := Exec(first, steps[..n]);
      RunRepliesCarry(first, steps[..n]);
      RequestsGrow(s, steps[n]);
      if steps[n].HandlerDone? && Enabled(s, steps[n]) {
        DoneCarries(s, steps[n].token, steps[n].result, HandlersDone(first, steps[..n]));
      } else {
        assert HandlersDone(first, steps) == HandlersDone(first, steps[..n]);
        SameCarries(s, Exec(first, steps), HandlersDone(first, steps[..n]));
      }
    }
  }

  /** And the replies passed to the transport are the first of these, in order. */
  lemma RepliesSentCarry(first: nat, steps: seq<Step>, k: nat)
    requires k < |Replies(Exec(first, steps).core.sent)|
    ensures
      var s := Exec(first, steps);
      var done := HandlersDone(first, steps);
      && k < |done| && done[k].0 < |s.core.requests|
      && Carries(Replies(s.core.sent)[k], s.core.requests[done[k].0], done[k].1)
  {
    var s := Exec(first, steps);
    RunRepliesCarry(first, steps);
    RunKeepsReplies(first, steps);
    assert (Replies(s.core.sent) + s.sinkQueue)[k] == Replies(s.core.sent)[k];
  }

  // When the peer does not reuse an id before its reply

  /** Requests whose reply has not been passed to the transport yet. */
  ghost predicate Outstanding(s: System, t: Token) {
    t in s.handlers || exists k :: |Replies(s.core.sent)| <= k < |s.finished| && s.finished[k].token == t
  }

  /** The peer message this step handles, if it handles one. */
  function Handled(s: System, step: Step): Option<Message> {
    match step
    case TurnBatch => if s.core.batch != [] then Some(s.core.batch[0]) else None
    case TurnReceive(m) => Some(m)
    case _ => None
  }

  ghost predicate NoReuse(s: System, step: Step) {
    Enabled(s, step) && Handled(s, step).Some? && Handled(s, step).value.Request? ==>
      forall t: Token :: t < |s.core.requests| && Outstanding(s, t) ==> s.core.requests[t] != Handled(s, step).value.id
  }

  /** The pool holds the tokens of exactly the requests neither cancelled nor replied to. */
  ghost predicate PoolExact(s: System) {
    && s.core.orphaned == {}
    && (forall t: Token, u: Token :: t < u < |s.core.requests| && Outstanding(s, t) && Outstanding(s, u) ==>
          s.core.requests[t] != s.core.requests[u])
    && forall t: Token :: t < |s.core.requests| ==>
         (t in s.core.ctPool.Values <==> Outstanding(s, t) && t !in s.core.cancelledByPeer)
  }

  /** Everything the loop keeps about incoming requests. */
  ghost predicate IncomingInv(s: System) {
    OneReplyEach(s) && TokensKept(s.core) && PoolExact(s)
  }

  /** Changes after which the same requests are outstanding. */
  lemma SameOutstanding(s: System, s': System)
    requires s'.handlers == s.handlers && s'.finished == s.finished && Replies(s'.core.sent) == Replies(s.core.sent)
    ensures forall t: Token :: Outstanding(s', t) <==> Outstanding(s, t)
  {
  }

  lemma SamePoolKeeps(s: System, s': System)
    requires PoolExact(s)
    requires SameIncoming(s.core, s'.core)
    requires forall t: Token :: Outstanding(s', t) <==> Outstanding(s, t)
    ensures PoolExact(s')
  {
  }

  lemma AsidePoolKeeps(s: System, s': System)
    requires PoolExact(s)
    requires SameIncoming(s.core, s'.core)
    requires s'.handlers == s.handlers && s'.finished == s.finished && Replies(s'.core.sent) == Replies(s.core.sent)
    ensures PoolExact(s')
  {
    SameOutstanding(s, s');
    SamePoolKeeps(s, s');
  }

  lemma PoolTokenOutstanding(s: System, id: RequestId)
    requires IncomingInv(s) && id in s.core.ctPool
    ensures
      var t := s.core.ctPool[id];
      t < |s.core.requests| && s.core.requests[t] == id && Outstanding(s, t) && t !in s.core.cancelledByPeer
  {
    assert s.core.ctPool[id] in s.core.ctPool.Values;
  }

  /** A request under an id that is not outstanding. */
  lemma RequestKeepsPool(s: System, s': System, m: Message)
    requires IncomingInv(s) && m.Request?
    requires forall t: Token :: t < |s.core.requests| && Outstanding(s, t) ==> s.core.requests[t] != m.id
    requires s'.core.ctPool == s.core.ctPool[m.id := |s.core.requests|]
    requires s'.core.requests == s.core.requests + [m.id]
    requires s'.core.orphaned == s.core.orphaned + if m.id in s.core.ctPool then {s.core.ctPool[m.id]} else {}
    requires s'.core.cancelledByPeer == s.core.cancelledByPeer && s'.core.sent == s.core.sent
    requires s'.handlers == s.handlers + {|s.core.requests|} && s'.finished == s.finished
    ensures PoolExact(s')
  {
    var n := |s.core.requests|;
    if m.id in s.core.ctPool {
      PoolTokenOutstanding(s, m.id);
    }
    CtInsert(s.core.ctPool, s.core.requests, m.id, n);
    assert n !in AllTokens(s.core);
    assert forall t: Token :: t != n ==> (Outstanding(s', t) <==> Outstanding(s, t));
  }

  /** A cancellation by the peer. */
  lemma CancelKeepsPool(s: System, s': System, id: RequestId)
    requires IncomingInv(s) && id in s.core.ctPool
    requires s'.core.ctPool == s.core.ctPool - {id} && s'.core.requests == s.core.requests
    requires s'.core.orphaned == s.core.orphaned && s'.core.sent == s.core.sent
    requires s'.core.cancelledByPeer == s.core.cancelledByPeer + {s.core.ctPool[id]}
    requires s'.handlers == s.handlers && s'.finished == s.finished
    ensures PoolExact(s')
  {
    CtRemove(s.core.ctPool, s.core.requests, id);
    SameOutstanding(s, s');
  }

  /** A reply passed to the transport settles its own request and no other. */
  lemma TurnSinkSettles(s: System, s': System)
    requires OneReplyEach(s) && s.sinkQueue != []
    requires Replies(s'.core.sent) == Replies(s.core.sent) + [s.sinkQueue[0]]
    requires s'.handlers == s.handlers && s'.finished == s.finished
    ensures
      var n := |Replies(s.core.sent)|;
      && n < |s.finished| && s.finished[n].reply == s.sinkQueue[0]
      && Outstanding(s, s.finished[n].token)
      && forall u: Token :: Outstanding(s', u) <==> Outstanding(s, u) && u != s.finished[n].token
  {
    var n := |Replies(s.core.sent)|;
    HeadReply(s);
    var t := s.finished[n].token;
    assert t in Tokens(s.finished);
    forall u: Token
      ensures Outstanding(s', u) <==> Outstanding(s, u) && u != t
    {
      if Outstanding(s, u) && u !in s.handlers && u != t {
        var k :| n <= k < |s.finished| && s.finished[k].token == u;
        assert k >= n + 1;
      }
    }
  }

  lemma TurnSinkKeepsPool(s: System)
    requires IncomingInv(s) && Enabled(s, TurnSink)
    ensures PoolExact(Take(s, TurnSink))
  {
    var s' := Take(s, TurnSink);
    var m := s.sinkQueue[0];
    TurnSinkKeepsReplies(s);
    TurnSinkSettles(s, s');
    var t := s.finished[|Replies(s.core.sent)|].token;
    if m.id in s.core.ctPool {
      PoolTokenOutstanding(s, m.id);
      assert s.core.ctPool[m.id] == t;
      CtRemove(s.core.ctPool, s.core.requests, m.id);
    } else {
      PoolHasUnderId(s, t);
    }
  }

  lemma PoolHasUnderId(s: System, t: Token)
    requires IncomingInv(s) && t < |s.core.requests| && s.core.requests[t] !in s.core.ctPool
    ensures t !in s.core.ctPool.Values
  {
  }

  /** Handling a peer message, from a core that differs at most in its batch queue. */
  lemma PeerKeepsPool(s: System, c: Core, m: Message)
    requires IncomingInv(s) && c == s.core.(batch := c.batch)
    requires m.Request? ==> forall t: Token :: t < |s.core.requests| && Outstanding(s, t) ==> s.core.requests[t] != m.id
    ensures PoolExact(s.(core := c.HandlePeer(m), handlers := s.handlers + Started(c, c.HandlePeer(m))))
  {
    var s' := s.(core := c.HandlePeer(m), handlers := s.handlers + Started(c, c.HandlePeer(m)));
    if m.Request? {
      RequestKeepsPool(s, s', m);
    } else if m.Notification? && m.notification.Cancelled? && m.notification.requestId in s.core.ctPool {
      assert s'.handlers == s.handlers;
      CancelKeepsPool(s, s', m.notification.requestId);
    } else {
      assert s'.handlers == s.handlers;
      SameOutstanding(s, s');
      SamePoolKeeps(s, s');
    }
  }

  lemma NextKeepsPool(s: System, step: Step)
    requires IncomingInv(s) && NoReuse(s, step)
    ensures IncomingInv(Next(s, step))
  {
    NextKeepsReplies(s, step);
    NextKeepsTokens(s, step);
    if Enabled(s, step) {
      TakeKeepsPool(s, step);
    }
  }

  /** A turn spent on a peer message. */
  lemma PeerTurnKeepsPool(s: System, step: Step)
    requires IncomingInv(s) && Enabled(s, step) && NoReuse(s, step) && (step.TurnBatch? || step.TurnReceive?)
    ensures PoolExact(Take(s, step))
  {
    if step.TurnBatch? {
      PeerKeepsPool(s, s.core.(batch := s.core.batch[1..]), s.core.batch[0]);
    } else {
      PeerKeepsPool(s, s.core, step.message);
      var s' := Take(s, step);
      AsidePoolKeeps(s'.(received := s.received), s');
    }
  }

  /** Steps that touch no incoming request. */
  lemma AsideStepKeepsPool(s: System, step: Step)
    requires PoolExact(s) && Enabled(s, step)
    requires step.Call? || step.Enqueue? || step.Notify? || step.TurnProxy? || step.TurnSendTask? || step.Quit?
    ensures PoolExact(Take(s, step))
  {
    var s' := Take(s, step);
    if step.TurnProxy? {
      TurnProxyKeepsReplies(s.core, s.peerQueue[0]);
    }
    AsideStepSame(s, step);
    AsidePoolKeeps(s, s');
  }

  lemma AsideStepSame(s: System, step: Step)
    requires Enabled(s, step)
    requires step.Call? || step.Enqueue? || step.Notify? || step.TurnProxy? || step.TurnSendTask? || step.Quit?
    ensures
      var s' := Take(s, step);
      && SameIncoming(s.core, s'.core) && s'.handlers == s.handlers && s'.finished == s.finished
      && s'.sinkQueue == s.sinkQueue
      && (!step.TurnProxy? ==> s'.core.sent == s.core.sent)
  {
    match step
    case TurnSendTask(task, failure) => TurnSendTaskSame(s, task, failure);
    case TurnProxy =>
      ProxySame(s.core, s.peerQueue[0]);
      assert s.handlers + {} == s.handlers;
    case _ =>
  }

  lemma TurnSendTaskSame(s: System, task: SendTask, failure: Option<string>)
    requires Enabled(s, TurnSendTask(task, failure))
    ensures
      var s' := Take(s, TurnSendTask(task, failure));
      && SameIncoming(s.core, s'.core) && s'.core.sent == s.core.sent
      && s'.handlers == s.handlers && s'.finished == s.finished && s'.sinkQueue == s.sinkQueue
  {
    SendTaskSame(s.core, task, failure);
    assert s.handlers + {} == s.handlers;
  }

  lemma TakeKeepsPool(s: System, step: Step)
    requires IncomingInv(s) && Enabled(s, step) && NoReuse(s, step)
    ensures PoolExact(Take(s, step))
  {
    match step
    case TurnBatch => PeerTurnKeepsPool(s, step);
    case TurnReceive(_) => PeerTurnKeepsPool(s, step);
    case TurnSink => TurnSinkKeepsPool(s);
    case HandlerDone(_, _) => HandlerDoneKeepsPool(s, step);
    case _ => AsideStepKeepsPool(s, step);
  }

  lemma HandlerDoneKeepsPool(s: System, step: Step)
    requires IncomingInv(s) && step.HandlerDone? && Enabled(s, step)
    ensures PoolExact(Take(s, step))
  {
    var s' := Take(s, step);
    var n := |s.finished|;
    assert |Replies(s.core.sent)| <= n by {
      assert |Replies(s.core.sent) + s.sinkQueue| == |ReplyLog(s.finished)|;
    }
    assert s'.finished[n].token == step.token;
    forall t: Token
      ensures Outstanding(s', t) <==> Outstanding(s, t)
    {
      if Outstanding(s, t) && t !in s.handlers {
        var k :| |Replies(s.core.sent)| <= k < n && s.finished[k].token == t;
        assert s'.finished[k].token == t;
      }
      if Outstanding(s', t) && t !in s'.handlers {
        var k :| |Replies(s.core.sent)| <= k < |s'.finished| && s'.finished[k].token == t;
        assert k < n ==> s.finished[k].token == t;
      }
    }
    SamePoolKeeps(s, s');
  }

  /** While the peer reuses no id before its reply, no token is orphaned and the
      pool holds exactly the requests neither cancelled nor replied to. */
  lemma {:induction false} RunKeepsPool(first: nat, steps: seq<Step>)
    requires forall k :: 0 <= k < |steps| ==> NoReuse(Exec(first, steps[..k]), steps[k])
    ensures IncomingInv(Exec(first, steps))
  {
    if steps != [] {
      var n := |steps| - 1;
      var init := steps[..n];
      assert forall k :: 0 <= k < n ==> init[..k] == steps[..k];
      RunKeepsPool(first, init);
      NextKeepsPool(Exec(first, init), steps[n]);
    }
  }

  /** The peer's cancellation of a request, if this step handles one. */
  function CancelledNow(s: System, step: Step): Option<RequestId> {
    match Handled(s, step)
    case Some(Notification(Cancelled(id, _))) => Some(id)
    case _ => None
  }

  lemma PeerCancels(c: Core, m: Message)
    ensures c.HandlePeer(m).cancelledByPeer == c.cancelledByPeer +
      (if m.Notification? && m.notification.Cancelled? && m.notification.requestId in c.ctPool
       then {c.ctPool[m.notification.requestId]} else {})
  {
  }

  /** Only a message of the peer cancels on its behalf. */
  lemma OtherCancels(s: System, step: Step)
    requires Enabled(s, step) && !step.TurnBatch? && !step.TurnReceive?
    ensures Take(s, step).core.cancelledByPeer == s.core.cancelledByPeer
  {
    if !step.TurnSink? && !step.HandlerDone? {
      AsideStepSame(s, step);
    }
  }

  lemma NextCancels(s: System, step: Step)
    ensures
      var now := if Enabled(s, step) then CancelledNow(s, step) else None;
      Next(s, step).core.cancelledByPeer == s.core.cancelledByPeer +
        if now.Some? && now.value in s.core.ctPool then {s.core.ctPool[now.value]} else {}
  {
    if Enabled(s, step) {
      match step
      case TurnBatch => PeerCancels(s.core.(batch := s.core.batch[1..]), s.core.batch[0]);
      case TurnReceive(m) => PeerCancels(s.core, m);
      case _ => OtherCancels(s, step);
    }
  }

  /** A cancellation by the peer cancels the token of the request it names, as long
      as that has no reply yet, and no other token. */
  lemma CancellationExact(s: System, step: Step, t: Token)
    requires IncomingInv(s) && Enabled(s, step) && t < |s.core.requests| && t !in s.core.cancelledByPeer
    ensures t in Next(s, step).core.cancelledByPeer <==>
      CancelledNow(s, step) == Some(s.core.requests[t]) && Outstanding(s, t)
  {
    NextCancels(s, step);
    var id := s.core.requests[t];
    if id in s.core.ctPool {
      PoolTokenOutstanding(s, id);
    } else {
      PoolHasUnderId(s, t);
    }
    var now := CancelledNow(s, step);
    if now.Some? && now.value in s.core.ctPool {
      PoolTokenOutstanding(s, now.value);
    }
  }

  /** A request under an id still in the pool orphans a token, and nothing else does. */
  lemma OrphanedByReuse(s: System, step: Step)
    requires TokensKept(s.core)
    ensures Next(s, step).core.orphaned == s.core.orphaned <==>
      !(Enabled(s, step) && Handled(s, step).Some? && Handled(s, step).value.Request?
        && Handled(s, step).value.id in s.core.ctPool)
  {
    if Enabled(s, step) && Handled(s, step).Some? && Handled(s, step).value.Request?
      && Handled(s, step).value.id in s.core.ctPool {
      assert s.core.ctPool[Handled(s, step).value.id] in s.core.ctPool.Values;
    }
  }

  // What becomes of one request

  /** What the steps so far mean for one request: it is not in the pool yet, waits
      there, was told the first verdict that came meanwhile, or lost its place. */
  datatype Fate = Outside | Pooled | Settled(outcome: Outcome) | Displaced

  /** The responder this step puts into the pool. */
  function TakenOver(s: System, step: Step): Option<Responder> {
    if step.TurnProxy? && Enabled(s, step) && s.peerQueue[0].SinkRequest? then Some(s.peerQueue[0].responder) else None
  }

  function NextFate(s: System, step: Step, r: Responder, fate: Fate): Fate {
    if !Enabled(s, step) then fate
    else match fate
      case Outside => if TakenOver(s, step) == Some(r) then Pooled else Outside
      case Pooled =>
        var verdict := Verdict(s, step);
        if verdict.Some? && verdict.value.0 == IdOf(r) then Settled(verdict.value.1)
        else if step.Quit? then Displaced
        else if TakenOver(s, step).Some? && IdOf(TakenOver(s, step).value) == IdOf(r) then Displaced
        else Pooled
      case _ => fate
  }

  function FateOf(first: nat, steps: seq<Step>, r: Responder): Fate {
    if steps == [] then Outside
    else
      var n := |steps| - 1;
      NextFate(Exec(first, steps[..n]), steps[n], r, FateOf(first, steps[..n], r))
  }

  /** The pool and the answers say so too. */
  ghost predicate FateIs(c: Core, r: Responder, fate: Fate) {
    && (fate.Pooled? <==> InPool(c, r))
    && (fate.Settled? <==> r in Answered(c))
    && (fate.Settled? ==> Answer(r, IdOf(r), fate.outcome) in c.answers)
    && (fate.Displaced? ==> r in c.dropped)
  }

  predicate InPool(c: Core, r: Responder) {
    IdOf(r) in c.responderPool && c.responderPool[IdOf(r)] == r
  }

  lemma InPoolIff(s: System, r: Responder)
    requires OwnIds(s)
    ensures InPool(s.core, r) <==> r in s.core.responderPool.Values
  {
  }

  /** What a step does to the pool. */
  function PoolAfter(s: System, step: Step): map<RequestId, Responder>
    requires Enabled(s, step)
  {
    if step.Quit? then map[]
    else if TakenOver(s, step).Some? then s.core.responderPool[s.peerQueue[0].id := s.peerQueue[0].responder]
    else if Verdict(s, step).Some? then s.core.responderPool - {Verdict(s, step).value.0}
    else s.core.responderPool
  }

  lemma PeerPool(c: Core, m: Message)
    ensures c.HandlePeer(m).responderPool ==
      if ReplyVerdict(m).Some? then c.responderPool - {ReplyVerdict(m).value.0} else c.responderPool
    ensures c.HandlePeer(m).dropped == c.dropped
  {
  }

  lemma SendTaskPool(c: Core, task: SendTask, failure: Option<string>)
    ensures c.HandleSendTask(task, failure).responderPool ==
      if SendVerdict(task, failure).Some? then c.responderPool - {SendVerdict(task, failure).value.0} else c.responderPool
    ensures c.HandleSendTask(task, failure).dropped == c.dropped
  {
  }

  lemma ProxyPool(c: Core, sink: PeerSink)
    ensures c.HandleProxy(sink).responderPool ==
      if sink.SinkRequest? then c.responderPool[sink.id := sink.responder] else c.responderPool
    ensures c.dropped <= c.HandleProxy(sink).dropped
  {
  }

  lemma SinkPool(c: Core, m: Message)
    ensures c.HandleToSink(m).responderPool == c.responderPool && c.HandleToSink(m).dropped == c.dropped
  {
  }

  lemma TakePool(s: System, step: Step)
    requires Enabled(s, step)
    ensures Take(s, step).core.responderPool == PoolAfter(s, step)
    ensures s.core.dropped <= Take(s, step).core.dropped
  {
    if step.TurnBatch? {
      PeerPool(s.core.(batch := s.core.batch[1..]), s.core.batch[0]);
    } else if step.TurnReceive? {
      PeerPool(s.core, step.message);
    } else if step.TurnSendTask? {
      SendTaskPool(s.core, step.task, step.failure);
    } else if step.TurnProxy? {
      ProxyPool(s.core, s.peerQueue[0]);
    } else if step.TurnSink? {
      SinkPool(s.core, s.sinkQueue[0]);
    } else {
      RestPool(s, step);
    }
  }

  lemma RestPool(s: System, step: Step)
    requires Enabled(s, step)
    requires step.Call? || step.Enqueue? || step.Notify? || step.HandlerDone? || step.Quit?
    ensures Take(s, step).core.responderPool == PoolAfter(s, step)
    ensures s.core.dropped <= Take(s, step).core.dropped
  {
  }

  lemma TakeDrops(s: System, step: Step, r: Responder)
    requires RequestInv(s) && Enabled(s, step) && InPool(s.core, r)
    requires step.Quit? || (TakenOver(s, step).Some? && IdOf(TakenOver(s, step).value) == IdOf(r))
    ensures r in Take(s, step).core.dropped
  {
    InPoolIff(s, r);
  }

  lemma DroppedIsOut(s: System, r: Responder)
    requires RequestInv(s)
    ensures r in s.core.dropped ==> !InPool(s.core, r) && r !in Answered(s.core)
    ensures r in Answered(s.core) ==> !InPool(s.core, r)
  {
    InPoolIff(s, r);
  }

  /** An answer added is that of a pooled responder. */
  lemma ToldAnswers(c: Core, c': Core, verdict: Option<(RequestId, Outcome)>, r: Responder)
    requires c'.answers == Told(c, verdict)
    ensures r in Answered(c') <==>
      r in Answered(c) || (verdict.Some? && verdict.value.0 in c.responderPool && c.responderPool[verdict.value.0] == r)
    ensures forall a :: a in c.answers ==> a in c'.answers
  {
    if verdict.Some? && verdict.value.0 in c.responderPool {
      AnsweredSnoc(c, c', Answer(c.responderPool[verdict.value.0], verdict.value.0, verdict.value.1));
    } else {
      assert Answered(c') == Answered(c);
    }
  }

  lemma TakeFate(s: System, step: Step, r: Responder, fate: Fate)
    requires RequestInv(s) && Enabled(s, step) && FateIs(s.core, r, fate)
    ensures FateIs(Take(s, step).core, r, NextFate(s, step, r, fate))
  {
    var s' := Take(s, step);
    NextKeepsRequests(s, step);
    FirstVerdictAnswers(s, step);
    TakePool(s, step);
    ToldAnswers(s.core, s'.core, Verdict(s, step), r);
    DroppedIsOut(s', r);
    match fate
    case Outside => OutsideFate(s, s', step, r);
    case Pooled => PooledFate(s, s', step, r);
    case Settled(_) =>
    case Displaced =>
  }

  lemma OutsideFate(s: System, s': System, step: Step, r: Responder)
    requires OwnIds(s) && Enabled(s, step) && FateIs(s.core, r, Outside)
    requires s'.core.responderPool == PoolAfter(s, step)
    requires r in Answered(s'.core) <==>
      r in Answered(s.core) || (Verdict(s, step).Some? && Verdict(s, step).value.0 in s.core.responderPool
                                && s.core.responderPool[Verdict(s, step).value.0] == r)
    ensures FateIs(s'.core, r, NextFate(s, step, r, Outside))
  {
  }

  lemma PooledFate(s: System, s': System, step: Step, r: Responder)
    requires RequestInv(s) && Enabled(s, step) && FateIs(s.core, r, Pooled)
    requires s' == Take(s, step) && s'.core.responderPool == PoolAfter(s, step)
    requires s'.core.answers == Told(s.core, Verdict(s, step))
    requires r in s'.core.dropped ==> !InPool(s'.core, r) && r !in Answered(s'.core)
    requires r in Answered(s'.core) <==>
      r in Answered(s.core) || (Verdict(s, step).Some? && Verdict(s, step).value.0 in s.core.responderPool
                                && s.core.responderPool[Verdict(s, step).value.0] == r)
    ensures FateIs(s'.core, r, NextFate(s, step, r, Pooled))
  {
    var next := NextFate(s, step, r, Pooled);
    if next.Displaced? {
      TakeDrops(s, step, r);
    } else if next.Settled? {
      var a := Answer(r, IdOf(r), next.outcome);
      assert s'.core.answers == s.core.answers + [a];
      assert s'.core.answers[|s.core.answers|] == a;
    }
  }

  /** Over every run a request is answered exactly if some verdict named its id while
      it waited in the pool, and then with the first such verdict. */
  lemma {:induction false} RunAnswersFirst(first: nat, steps: seq<Step>, r: Responder)
    ensures FateIs(Exec(first, steps).core, r, FateOf(first, steps, r))
  {
    if steps == [] {
      assert Answered(Exec(first, steps).core) == {};
    } else {
      var n := |steps| - 1;
      RunAnswersFirst(first, steps[..n], r);
      RunKeepsRequests(first, steps[..n]);
      if Enabled(Exec(first, steps[..n]), steps[n]) {
        TakeFate(Exec(first, steps[..n]), steps[n], r, FateOf(first, steps[..n], r));
      }
    }
  }

  // The end of a run

  /** What a caller's wait ends with: its answer, or `TransportClosed`. */
  datatype Waiting = Pending | Got(outcome: Outcome) | TransportClosed

  ghost function Await(s: System, r: Responder): Waiting {
    if r in s.core.dropped then TransportClosed
    else if exists k :: 0 <= k < |s.core.answers| && s.core.answers[k].responder == r then
      var k :| 0 <= k < |s.core.answers| && s.core.answers[k].responder == r;
      Got(s.core.answers[k].outcome)
    else Pending
  }

  /** Over every run a caller got its answer exactly if its request was answered,
      waits exactly while its request is with it, queued or in the pool, and is told
      that the transport closed otherwise: after the end, exactly if not answered,
      and before it to none of the first 2^32 requests. */
  lemma RunResolves(first: nat, steps: seq<Step>, r: Responder)
    requires first <= r < Exec(first, steps).drawn
    ensures
      var s := Exec(first, steps);
      && (Await(s, r).Got? <==> r in Answered(s.core))
      && (Await(s, r).Got? ==> exists k :: 0 <= k < |s.core.answers| && s.core.answers[k].responder == r
                                           && Await(s, r) == Got(s.core.answers[k].outcome))
      && (Await(s, r) == Pending <==> r in s.calling.Keys + Queued(s.peerQueue) + s.core.responderPool.Values)
      && (s.quit.Some? ==> (Await(s, r) == TransportClosed <==> r !in Answered(s.core)))
      && (s.quit.None? && s.drawn <= U32_LIMIT ==> Await(s, r) != TransportClosed)
  {
    RunKeepsRequests(first, steps);
    PlacesResolve(Exec(first, steps), r);
  }

  lemma PlacesResolve(s: System, r: Responder)
    requires RequestInv(s) && r in Places(s)
    ensures Await(s, r) == TransportClosed <==> r in s.core.dropped
    ensures Await(s, r).Got? <==> r in Answered(s.core)
    ensures Await(s, r).Got? ==> exists k :: 0 <= k < |s.core.answers| && s.core.answers[k].responder == r
                                             && Await(s, r) == Got(s.core.answers[k].outcome)
    ensures s.quit.Some? ==> r in Answered(s.core) + s.core.dropped
  {
  }

  /** And its caller is told exactly that. */
  lemma CallerHearsFirst(first: nat, steps: seq<Step>, r: Responder)
    requires first <= r < Exec(first, steps).drawn
    ensures
      var heard := Await(Exec(first, steps), r);
      var fate := FateOf(first, steps, r);
      && (heard.Got? <==> fate.Settled?)
      && (heard.Got? ==> heard.outcome == fate.outcome)
  {
    var s := Exec(first, steps);
    RunAnswersFirst(first, steps, r);
    RunResolves(first, steps, r);
    RunKeepsRequests(first, steps);
    var fate := FateOf(first, steps, r);
    if fate.Settled? {
      var i :| 0 <= i < |s.core.answers| && s.core.answers[i] == Answer(r, IdOf(r), fate.outcome);
      var k :| 0 <= k < |s.core.answers| && s.core.answers[k].responder == r && Await(s, r) == Got(s.core.answers[k].outcome);
      OneAnswer(s, i, k);
    }
  }

  lemma OneAnswer(s: System, i: nat, k: nat)
    requires NoneTwice(s) && i < |s.core.answers| && k < |s.core.answers|
    requires s.core.answers[i].responder == s.core.answers[k].responder
    ensures i == k
  {
  }

  predicate Displaces(s: System, step: Step) {
    && step.TurnProxy? && Enabled(s, step)
    && s.peerQueue[0].SinkRequest? && s.peerQueue[0].id in s.core.responderPool
  }

  /** While the loop runs a caller is dropped exactly when the loop takes over a
      request whose id still waits in the pool, which only a wrapped id can do. */
  lemma DroppedIff(s: System, step: Step)
    requires RequestInv(s) && s.quit.None? && !step.Quit?
    ensures Next(s, step).core.dropped != s.core.dropped <==> Displaces(s, step)
    ensures Displaces(s, step) ==> U32_LIMIT < s.drawn
  {
    if Displaces(s, step) {
      RequestIsQueued(s);
      assert s.core.responderPool[s.peerQueue[0].id] in s.core.responderPool.Values;
    }
  }

  /** While the loop goes on, the caller is told that the transport closed. */
  ghost predicate ToldClosed(s: System, r: Responder) {
    s.quit.None? && Await(s, r) == TransportClosed
  }

  /** The id drawn after 2^32 others is the first one again: while that request is
      still waiting, the new one takes its responder's place. */
  lemma WrappedIdDrops(s: System, request: RequestBody)
    requires RequestInv(s) && s.quit.None? && s.core.batch == []
    requires s.drawn == U32_LIMIT && s.first == 0 && s.peerQueue == []
    requires IdOf(0) in s.core.responderPool
    ensures
      var called := Next(s, Call(request));
      var queued := Next(called, Enqueue(U32_LIMIT));
      ToldClosed(Next(queued, TurnProxy), 0)
  {
    var r0 := s.core.responderPool[IdOf(0)];
    assert r0 in s.core.responderPool.Values && r0 in Places(s);
    assert r0 == 0;
  }

  /** One request put into the pool, and then n more ids drawn. */
  function DrawMany(request: RequestBody, n: nat): seq<Step> {
    if n == 0 then [Call(request), Enqueue(0), TurnProxy] else DrawMany(request, n - 1) + [Call(request)]
  }

  ghost predicate Drawn(s: System, n: nat) {
    && s.quit.None? && s.core.batch == [] && s.peerQueue == [] && s.first == 0
    && s.drawn == n + 1 && IdOf(0) in s.core.responderPool
  }

  lemma ExecSnoc(first: nat, steps: seq<Step>, step: Step)
    ensures Exec(first, steps + [step]) == Next(Exec(first, steps), step)
  {
    assert (steps + [step])[..|steps|] == steps;
  }

  lemma ExecThree(first: nat, steps: seq<Step>, a: Step, b: Step, c: Step)
    ensures Exec(first, steps + [a] + [b] + [c]) == Next(Next(Next(Exec(first, steps), a), b), c)
  {
    ExecSnoc(first, steps, a);
    ExecSnoc(first, steps + [a], b);
    ExecSnoc(first, steps + [a] + [b], c);
  }

  /** The loop idles, and the first request drawn is the only one queued. */
  ghost predicate FirstQueued(s: System, request: RequestBody) {
    && s.quit.None? && s.core.batch == [] && s.first == 0 && s.drawn == 1
    && s.peerQueue == [SinkRequest(0, IdOf(0), request)]
  }

  lemma StartQueues(request: RequestBody)
    ensures FirstQueued(Next(Next(Start(0), Call(request)), Enqueue(0)), request)
  {
    var called := Next(Start(0), Call(request));
    assert called.calling == map[0 := request] && called.peerQueue == [];
  }

  lemma QueuedIsDrawn(s: System, request: RequestBody)
    requires FirstQueued(s, request)
    ensures Drawn(Next(s, TurnProxy), 0)
  {
    assert s.peerQueue[1..] == [];
  }

  lemma FirstDrawn(request: RequestBody)
    ensures Drawn(Exec(0, DrawMany(request, 0)), 0)
  {
    ExecThree(0, [], Call(request), Enqueue(0), TurnProxy);
    StartQueues(request);
    QueuedIsDrawn(Next(Next(Start(0), Call(request)), Enqueue(0)), request);
    FirstThree(request);
  }

  lemma FirstThree(request: RequestBody)
    ensures [] + [Call(request)] + [Enqueue(0)] + [TurnProxy] == DrawMany(request, 0)
  {
  }

  lemma {:induction false} ManyDrawn(request: RequestBody, n: nat)
    ensures Drawn(Exec(0, DrawMany(request, n)), n)
    decreases n
  {
    if n == 0 {
      FirstDrawn(request);
    } else {
      ManyDrawn(request, n - 1);
      ExecSnoc(0, DrawMany(request, n - 1), Call(request));
    }
  }

  /** A run that gets there: 2^32 + 1 calls, the first of which is never answered. */
  lemma WrapReached(request: RequestBody)
    ensures exists steps :: ToldClosed(Exec(0, steps), 0)
  {
    var steps := DrawMany(request, U32_LIMIT - 1);
    ManyDrawn(request, U32_LIMIT - 1);
    RunKeepsRequests(0, steps);
    WrappedIdDrops(Exec(0, steps), request);
    ExecThree(0, steps, Call(request), Enqueue(U32_LIMIT), TurnProxy);
  }
}
