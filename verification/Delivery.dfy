/** End to end: one resumable stream of a session, the connection that carries it
    and the reconnecting client at the other end
    (crates/rmcp/src/transport/streamable_http_server/session.rs, axum.rs beside it, and
    crates/rmcp/src/transport/common/client_side_sse.rs). */
module Delivery {
  import opened JsonRpc
  import opened EventIds
  import opened Streams
  import opened RetryPolicies
  import SSE = SseReconnect
  import Sequences

  datatype Failure = Unreachable | Refused

  type Client = SSE.Machine<Message, Failure>

  datatype Env = Env(policy: RetryPolicy, parse: SSE.Parser<Message>, ser: Message -> string)

  /** `wire` is what left the session's channel and has not arrived; `lost` are the
      indices that no reconnection so far could still have replayed when it had to.
      A client that is sent to another stream has `strayed`. */
  datatype World = World(
    stream: Stream,
    live: bool,
    wire: seq<SessionMessage>,
    client: Client,
    received: seq<SessionMessage>,
    lost: set<nat>,
    strayed: bool)
  {
    predicate Connected() {
      client.state == SSE.Connected && !strayed
    }

    /** One more than the last index received. */
    function Upto(): nat {
      if received == [] then 0 else received[|received| - 1].eventId.index + 1
    }
  }

  datatype Step =
    | Send(message: Message, wake: Streams.Wake)
    | Pump
    | Deliver
    | Break
    | Notice
    | DropStream
    | End
    | Reach(replyLost: bool)
    | Miss
    | Wake

  /** A send on a full channel waits: while the client is connected, until it has
      taken `wake` and what makes room, otherwise also until the receiver goes. The stream
      ends for the client when the session dropped it and everything in it arrived. */
  predicate Enabled(w: World, step: Step) {
    match step
    case Send(_, wake) =>
      && w.live && |w.stream.history| < U64_LIMIT
      && (w.Connected() && |w.stream.link.queue| >= w.stream.link.capacity ==> wake.Takes?)
    case Pump => w.stream.link.queue != []
    case Deliver => w.Connected() && w.wire != []
    case Break => w.Connected()
    case Notice => !w.Connected()
    case DropStream => w.stream.id.Some?
    case End => w.Connected() && !w.live && w.wire == [] && w.stream.link.queue == []
    case Reach(_) => w.client.state.Retrying? && w.client.attempts != [] && !w.strayed
    case Miss => w.client.state.Retrying? && !w.strayed
    case Wake => w.client.state.WaitingNextRetry? && !w.strayed
  }

  function EventOf(env: Env, m: SessionMessage): SSE.Sse {
    SSE.Sse(Some(ToString(m.eventId)), None, Some(env.ser(m.message)))
  }

  /** What the receiver took from the channel while one message was sent. */
  function TakenBy(before: Link, after: Link): seq<SessionMessage> {
    if before.open && after.open && 1 <= |after.queue| <= |before.queue| + 1 then
      before.queue[..|before.queue| + 1 - |after.queue|] else []
  }

  function Feed(env: Env, w: World, r: SSE.Ready<Failure>): World {
    w.(client := w.client.Next(env.policy, env.parse, r))
  }

  /** The indices a client that has everything below `upto` can no longer get. */
  function Evicted(s: Stream, upto: nat): set<nat> {
    Interval(upto, s.Oldest())
  }

  function Interval(lo: nat, hi: nat): (r: set<nat>)
    ensures forall x: nat :: x in r <==> lo <= x < hi
    decreases hi
  {
    if lo >= hi then {} else Interval(lo, hi - 1) + {hi - 1}
  }

  /** The session resumes the stream for a client; the answer may not arrive. */
  function Resumed(env: Env, w: World, index: nat, replyLost: bool): World {
    var (s, r) := w.stream.Resume(index, w.stream.capacity);
    if r.Err? || replyLost then Feed(env, w.(stream := s), SSE.ReconnectFailed(Refused))
    else Feed(env, w.(stream := s, wire := [], lost := w.lost + Evicted(w.stream, w.Upto())), SSE.Reconnected)
  }

  /** What the session does with the `Last-Event-ID` of a reconnection; without one
      it resumes the common stream from 0. */
  function Reached(env: Env, w: World, id: Option<string>, replyLost: bool): World {
    match id
    case None =>
      if w.stream.id.None? then Resumed(env, w, 0, replyLost)
      else if replyLost then Feed(env, w, SSE.ReconnectFailed(Refused))
      else Feed(env, w.(strayed := true), SSE.Reconnected)
    case Some(text) =>
      match FromString(text)
      case Err(_) => Feed(env, w, SSE.ReconnectFailed(Refused))
      case Ok(eventId) =>
        if !w.live || eventId.httpRequestId != w.stream.id then Feed(env, w, SSE.ReconnectFailed(Refused))
        else Resumed(env, w, eventId.index, replyLost)
  }

  function Take(env: Env, w: World, step: Step): World
    requires Enabled(w, step)
  {
    match step
    case Send(m, wake) =>
      var s := w.stream.Send(m, wake);
      w.(stream := s, wire := if w.Connected() then w.wire + TakenBy(w.stream.link, s.link) else w.wire)
    case Pump =>
      var link := w.stream.link;
      w.(stream := w.stream.(link := link.(queue := link.queue[1..])),
         wire := if w.Connected() then w.wire + [link.queue[0]] else w.wire)
    case Deliver =>
      Feed(env, w.(wire := w.wire[1..], received := w.received + [w.wire[0]]), SSE.Item(EventOf(env, w.wire[0])))
    case Break => Feed(env, w.(wire := []), SSE.StreamError)
    case Notice => w.(stream := w.stream.(link := w.stream.link.Receive(Drops)))
    case DropStream => w.(live := false)
    case End => Feed(env, w, SSE.StreamEnd)
    case Reach(replyLost) => Reached(env, w, w.client.attempts[|w.client.attempts| - 1], replyLost)
    case Miss => Feed(env, w, SSE.ReconnectFailed(Unreachable))
    case Wake => Feed(env, w, SSE.Slept)
  }

  function Next(env: Env, w: World, step: Step): World {
    if Enabled(w, step) then Take(env, w, step) else w
  }

  /** Joining a stream: a new one, or the common stream, which replays its cache. */
  function Join(s: Stream): World {
    World(s.(link := Link(s.capacity, s.ReplayFrom(0), true)), true, [], SSE.Fresh(), [], Evicted(s, 0), false)
  }

  function Exec(env: Env, s: Stream, steps: seq<Step>): World {
    if steps == [] then Join(s) else Next(env, Exec(env, s, steps[..|steps| - 1]), steps[|steps| - 1])
  }

  /** Ids that fit their types. */
  predicate Representable(s: Stream) {
    s.capacity >= 1 && |s.history| <= U64_LIMIT && (s.id.Some? ==> s.id.value < U64_LIMIT)
  }

  // What every run keeps

  predicate Authentic(s: Stream, m: SessionMessage) {
    var k := m.eventId.index;
    k < |s.history| && m == SessionMessage(EventId(s.id, k), s.history[k])
  }

  ghost predicate Has(received: seq<SessionMessage>, x: nat) {
    exists j :: 0 <= j < |received| && received[j].eventId.index == x
  }

  /** What arrived is genuine, in order, and all there is below `Upto` except what was lost. */
  ghost predicate ReceivedExactly(w: World) {
    && (forall j :: 0 <= j < |w.received| ==> Authentic(w.stream, w.received[j]))
    && (forall i, j :: 0 <= i < j < |w.received| ==> w.received[i].eventId.index <= w.received[j].eventId.index)
    && forall x: nat :: Has(w.received, x) <==> x < w.Upto() && x !in w.lost
  }

  /** The index of the next event to arrive. */
  function NextIndex(w: World): int {
    |w.stream.history| - |w.wire + w.stream.link.queue|
  }

  /** While connected, the events on their way are all the later ones; only the last
      one received may come again, and only lost ones are jumped. */
  ghost predicate Pipeline(w: World) {
    w.Connected() ==>
      && w.stream.link.open
      && 0 <= NextIndex(w) && w.Upto() - 1 <= NextIndex(w)
      && w.wire + w.stream.link.queue == w.stream.Numbered()[NextIndex(w)..]
      && (forall x: nat :: w.Upto() <= x < NextIndex(w) ==> x in w.lost)
      && forall x :: x in w.lost ==> x < NextIndex(w)
  }

  /** The client reconnects with the id of the last event received. */
  predicate LastIdKept(w: World) {
    && w.client.lastEventId ==
       (if w.received == [] then None else Some(ToString(w.received[|w.received| - 1].eventId)))
    && (w.client.state.Retrying? ==>
          w.client.attempts != [] && w.client.attempts[|w.client.attempts| - 1] == w.client.lastEventId)
  }

  ghost predicate LostEvicted(w: World) {
    forall x :: x in w.lost ==> x < w.stream.Oldest()
  }

  /** No channel holds more than its capacity. */
  predicate LinkBounded(s: Stream) {
    s.link.capacity == s.capacity && |s.link.queue| <= s.capacity
  }

  ghost predicate Inv(w: World) {
    && Representable(w.stream) && LinkBounded(w.stream)
    && ReceivedExactly(w) && Pipeline(w) && LastIdKept(w) && LostEvicted(w)
  }

  lemma NumberedSnoc(s: Stream, m: Message, wake: Wake)
    ensures s.Send(m, wake).Numbered() == s.Numbered() + [SessionMessage(EventId(s.id, |s.history|), m)]
  {
  }

  /** Waiting for room loses nothing: what leaves the channel is on the wire. */
  lemma SendPasses(link: Link, m: SessionMessage, wake: Wake)
    requires link.capacity >= 1 && |link.queue| <= link.capacity && link.open
    requires |link.queue| >= link.capacity ==> wake.Takes?
    ensures
      var after := link.Accept(m, wake);
      after.open && TakenBy(link, after) + after.queue == link.queue + [m] && |after.queue| <= link.capacity
  {
    SendReaches(link, m, wake);
  }

  lemma SendKeeps(env: Env, w: World, m: Message, wake: Wake)
    requires Inv(w) && Enabled(w, Send(m, wake))
    ensures Inv(Take(env, w, Send(m, wake)))
  {
    var w' := Take(env, w, Send(m, wake));
    var sent := SessionMessage(EventId(w.stream.id, |w.stream.history|), m);
    NumberedSnoc(w.stream, m, wake);
    AcceptBounded(w.stream.link, sent, wake);
    if w.Connected() {
      SendPasses(w.stream.link, sent, wake);
      SendMoves(w.wire, TakenBy(w.stream.link, w'.stream.link), w'.stream.link.queue, w.stream.link.queue, sent);
      SliceSnoc(w.stream.Numbered(), sent, NextIndex(w));
    }
  }

  lemma SendMoves<T>(wire: seq<T>, taken: seq<T>, after: seq<T>, before: seq<T>, sent: T)
    requires taken + after == before + [sent]
    ensures (wire + taken) + after == (wire + before) + [sent]
    ensures |(wire + taken) + after| == |wire + before| + 1
  {
    assert (wire + taken) + after == wire + (taken + after);
  }

  lemma SliceSnoc<T>(s: seq<T>, x: T, from: nat)
    requires from <= |s|
    ensures (s + [x])[from..] == s[from..] + [x]
  {
  }

  lemma PumpKeeps(env: Env, w: World)
    requires Inv(w) && Enabled(w, Pump)
    ensures Inv(Take(env, w, Pump))
  {
    var w' := Take(env, w, Pump);
    if w.Connected() {
      Sequences.MoveHead(w.wire, w.stream.link.queue);
    }
  }

  lemma HasSnoc(received: seq<SessionMessage>, m: SessionMessage, x: nat)
    ensures Has(received + [m], x) <==> Has(received, x) || x == m.eventId.index
  {
    if Has(received, x) {
      var j :| 0 <= j < |received| && received[j].eventId.index == x;
      assert (received + [m])[j].eventId.index == x;
    }
    assert (received + [m])[|received|] == m;
  }

  /** The next event on its way. */
  lemma WireHead(w: World)
    requires Inv(w) && Enabled(w, Deliver)
    ensures
      var m := w.wire[0];
      && Authentic(w.stream, m) && m.eventId.index == NextIndex(w)
      && w.wire[1..] + w.stream.link.queue == w.stream.Numbered()[NextIndex(w) + 1..]
  {
    var way := w.wire + w.stream.link.queue;
    assert way[0] == w.wire[0] && way[1..] == w.wire[1..] + w.stream.link.queue;
    assert way[0] == w.stream.Numbered()[NextIndex(w)];
  }

  lemma DeliverReceives(w: World, w': World)
    requires Inv(w) && Enabled(w, Deliver)
    requires w'.received == w.received + [w.wire[0]] && w'.lost == w.lost && w'.stream == w.stream
    ensures ReceivedExactly(w') && w'.Upto() == NextIndex(w) + 1
  {
    WireHead(w);
    forall x: nat
      ensures Has(w'.received, x) <==> x < w'.Upto() && x !in w'.lost
    {
      HasSnoc(w.received, w.wire[0], x);
    }
    LastIsLargest(w);
  }

  lemma LastIsLargest(w: World)
    requires ReceivedExactly(w)
    ensures forall j :: 0 <= j < |w.received| ==> w.received[j].eventId.index < w.Upto()
  {
    forall j | 0 <= j < |w.received| ensures w.received[j].eventId.index < w.Upto() {
      assert Has(w.received, w.received[j].eventId.index);
    }
  }

  lemma DeliverKeeps(env: Env, w: World)
    requires Inv(w) && Enabled(w, Deliver)
    ensures Inv(Take(env, w, Deliver))
  {
    var w' := Take(env, w, Deliver);
    WireHead(w);
    DeliverReceives(w, w');
    assert NextIndex(w') == NextIndex(w) + 1;
  }

  lemma NoticeKeeps(env: Env, w: World)
    requires Inv(w) && (Enabled(w, Notice) || Enabled(w, DropStream))
    ensures Enabled(w, Notice) ==> Inv(Take(env, w, Notice))
    ensures Enabled(w, DropStream) ==> Inv(Take(env, w, DropStream))
  {
  }

  lemma EndKeeps(env: Env, w: World)
    requires Inv(w) && Enabled(w, End)
    ensures Inv(Take(env, w, End))
  {
    assert Take(env, w, End) == w.(client := w.client.(consumed := w.client.consumed + [SSE.StreamEnd]));
  }

  lemma OffKeeps(env: Env, w: World, w': World)
    requires Representable(w.stream) && ReceivedExactly(w) && LostEvicted(w) && !w'.Connected() && LastIdKept(w')
    requires w'.stream.history == w.stream.history && w'.stream.id == w.stream.id && w'.stream.capacity == w.stream.capacity
    requires w'.received == w.received && w'.lost == w.lost && LinkBounded(w'.stream)
    ensures Inv(w')
  {
  }

  /** A failed reconnection changes nothing the client knows. */
  lemma FailKeeps(env: Env, w: World, w': World, error: Failure)
    requires Representable(w.stream) && ReceivedExactly(w) && LostEvicted(w) && LastIdKept(w)
    requires w.client.state.Retrying?
    requires w'.stream.history == w.stream.history && w'.stream.id == w.stream.id && w'.stream.capacity == w.stream.capacity
    requires w' == w.(stream := w'.stream) && LinkBounded(w'.stream)
    ensures Inv(Feed(env, w', SSE.ReconnectFailed(error)))
  {
    OffKeeps(env, w, Feed(env, w', SSE.ReconnectFailed(error)));
  }

  lemma BreakKeeps(env: Env, w: World)
    requires Inv(w) && Enabled(w, Break)
    ensures Inv(Take(env, w, Break))
  {
    OffKeeps(env, w, Take(env, w, Break));
  }

  lemma WakeKeeps(env: Env, w: World)
    requires Inv(w) && Enabled(w, Wake)
    ensures Inv(Take(env, w, Wake))
  {
    OffKeeps(env, w, Take(env, w, Wake));
  }

  /** A reconnection that succeeds, with the index of the last event received, or
      0 if there is none. */
  lemma ResumeKeeps(env: Env, w: World, index: nat)
    requires Inv(w) && w.client.state.Retrying? && !w.strayed
    requires index == if w.received == [] then 0 else w.Upto() - 1
    ensures Inv(Resumed(env, w, index, false)) && Resumed(env, w, index, false).Connected()
  {
    var w' := Resumed(env, w, index, false);
    if w.received != [] {
      assert Authentic(w.stream, w.received[|w.received| - 1]);
    }
    ResumeFills(env, w, index);
    FilledKeeps(w, w', if index < w.stream.Oldest() then w.stream.Oldest() else index);
  }

  lemma FilledKeeps(w: World, w': World, from: nat)
    requires Representable(w.stream) && ReceivedExactly(w) && LastIdKept(w) && LostEvicted(w)
    requires w.stream.Oldest() <= from <= |w.stream.history| && w.Upto() - 1 <= from
    requires from <= w.Upto() || from == w.stream.Oldest()
    requires w'.stream == w.stream.(link := Link(w.stream.capacity, w.stream.Numbered()[from..], true))
    requires w'.received == w.received && w'.lost == w.lost + Evicted(w.stream, w.Upto())
    requires w'.wire + w'.stream.link.queue == w'.stream.link.queue && NextIndex(w') == from
    requires w'.Connected() && w'.client.lastEventId == w.client.lastEventId
    ensures Inv(w')
  {
    StillReceived(w, w');
    assert w'.stream.Numbered() == w.stream.Numbered();
  }

  lemma ResumeFills(env: Env, w: World, index: nat)
    requires w.client.state.Retrying? && !w.strayed && index <= |w.stream.history|
    ensures
      var w' := Resumed(env, w, index, false);
      var from := if index < w.stream.Oldest() then w.stream.Oldest() else index;
      && w' == w.(stream := w.stream.(link := Link(w.stream.capacity, w.stream.Numbered()[from..], true)), wire := [],
                  lost := w.lost + Evicted(w.stream, w.Upto()), client := w'.client)
      && w'.Connected() && w'.client.lastEventId == w.client.lastEventId
      && NextIndex(w') == from && w'.stream.Numbered() == w.stream.Numbered()
      && w'.wire + w'.stream.link.queue == w'.stream.link.queue
  {
    ResumeExactly(w.stream, index, w.stream.capacity);
    var w' := Resumed(env, w, index, false);
    assert w'.wire + w'.stream.link.queue == w'.stream.link.queue;
  }

  /** What is lost on a reconnection had not been received. */
  lemma StillReceived(w: World, w': World)
    requires ReceivedExactly(w) && w'.received == w.received && w'.lost == w.lost + Evicted(w.stream, w.Upto())
    requires w'.stream.history == w.stream.history && w'.stream.id == w.stream.id
    ensures ReceivedExactly(w')
  {
  }

  /** The id the client reconnects with parses back to the last event received. */
  lemma OwnIdParses(w: World)
    requires Inv(w) && w.received != []
    ensures FromString(ToString(w.received[|w.received| - 1].eventId)) == Ok(w.received[|w.received| - 1].eventId)
    ensures w.received[|w.received| - 1].eventId == EventId(w.stream.id, w.Upto() - 1)
    ensures w.Upto() <= |w.stream.history|
  {
    var last := w.received[|w.received| - 1];
    assert Authentic(w.stream, last);
    RoundTrip(last.eventId);
  }

  lemma LostReplyKeeps(env: Env, w: World, index: nat)
    requires Inv(w) && w.client.state.Retrying? && !w.strayed
    ensures Inv(Resumed(env, w, index, true))
  {
    ResumeExactly(w.stream, index, w.stream.capacity);
    ReplayIsHistory(w.stream, index);
    FailKeeps(env, w, w.(stream := w.stream.Resume(index, w.stream.capacity).0), Refused);
  }

  /** What a reconnection that reaches the session comes to. */
  function ReachOutcome(env: Env, w: World, replyLost: bool): World {
    if w.received != [] && !w.live then Feed(env, w, SSE.ReconnectFailed(Refused))
    else if w.received != [] then Resumed(env, w, w.Upto() - 1, replyLost)
    else if w.stream.id.None? then Resumed(env, w, 0, replyLost)
    else if replyLost then Feed(env, w, SSE.ReconnectFailed(Refused))
    else Feed(env, w.(strayed := true), SSE.Reconnected)
  }

  lemma ReachIs(env: Env, w: World, replyLost: bool)
    requires Inv(w) && Enabled(w, Reach(replyLost))
    ensures Take(env, w, Reach(replyLost)) == ReachOutcome(env, w, replyLost)
  {
    if w.received != [] {
      OwnIdParses(w);
    }
  }

  lemma ReachKeeps(env: Env, w: World, replyLost: bool)
    requires Inv(w) && Enabled(w, Reach(replyLost))
    ensures Inv(Take(env, w, Reach(replyLost)))
  {
    ReachIs(env, w, replyLost);
    OutcomeKeeps(env, w, replyLost);
  }

  lemma OutcomeKeeps(env: Env, w: World, replyLost: bool)
    requires Inv(w) && w.client.state.Retrying? && !w.strayed
    ensures Inv(ReachOutcome(env, w, replyLost))
  {
    FailKeeps(env, w, w, Refused);
    if w.received == [] && w.stream.id.Some? {
      if !replyLost {
        OffKeeps(env, w, ReachOutcome(env, w, replyLost));
      }
    } else if w.received == [] || w.live {
      var index := if w.received == [] then 0 else w.Upto() - 1;
      if replyLost {
        LostReplyKeeps(env, w, index);
      } else {
        ResumeKeeps(env, w, index);
      }
    }
  }

  lemma NextKeeps(env: Env, w: World, step: Step)
    requires Inv(w)
    ensures Inv(Next(env, w, step))
  {
    if Enabled(w, step) {
      match step
      case Send(m, wake) => SendKeeps(env, w, m, wake);
      case Pump => PumpKeeps(env, w);
      case Deliver => DeliverKeeps(env, w);
      case Break => BreakKeeps(env, w);
      case Notice => NoticeKeeps(env, w);
      case DropStream => NoticeKeeps(env, w);
      case End => EndKeeps(env, w);
      case Reach(replyLost) => ReachKeeps(env, w, replyLost);
      case Miss => FailKeeps(env, w, w, Unreachable);
      case Wake => WakeKeeps(env, w);
    }
  }

  lemma JoinKeeps(s: Stream)
    requires Representable(s)
    ensures Inv(Join(s))
  {
    var w := Join(s);
    assert w.wire + w.stream.link.queue == w.stream.link.queue;
    assert w.stream.Numbered() == s.Numbered();
    assert !exists x: nat :: Has(w.received, x);
  }

  lemma {:induction false} RunKeeps(env: Env, s: Stream, steps: seq<Step>)
    requires Representable(s)
    ensures Inv(Exec(env, s, steps))
  {
    if steps == [] {
      JoinKeeps(s);
    } else {
      RunKeeps(env, s, steps[..|steps| - 1]);
      NextKeeps(env, Exec(env, s, steps[..|steps| - 1]), steps[|steps| - 1]);
    }
  }

  // Gaps

  /** The indices received are an initial segment. */
  ghost predicate NoGap(w: World) {
    forall x: nat :: x < w.Upto() ==> Has(w.received, x)
  }

  /** Where this step is a reconnection that resumes the stream, the oldest cached
      index is at most one more than the last index received. */
  predicate StillCached(w: World, step: Step) {
    step == Reach(false) && Enabled(w, step) && w.live && (w.received != [] || w.stream.id.None?) ==>
      w.stream.Oldest() <= w.Upto()
  }

  /** A gap shows exactly when something lost lies below what was received since. */
  lemma NoGapIff(env: Env, s: Stream, steps: seq<Step>)
    requires Representable(s)
    ensures
      var w := Exec(env, s, steps);
      NoGap(w) <==> forall x :: x in w.lost ==> w.Upto() <= x
  {
    RunKeeps(env, s, steps);
  }

  lemma NextLoses(env: Env, w: World, step: Step)
    requires Inv(w) && (w.stream.id.None? ==> w.live)
    ensures w.lost <= Next(env, w, step).lost
    ensures Next(env, w, step).lost == {} <==> w.lost == {} && StillCached(w, step)
    ensures Next(env, w, step).stream.id == w.stream.id && (w.stream.id.None? ==> Next(env, w, step).live)
  {
    if step.Reach? && Enabled(w, step) {
      ReachIs(env, w, step.replyLost);
      if w.received != [] {
        OwnIdParses(w);
      }
      ResumeExactly(w.stream, if w.received == [] then 0 else w.Upto() - 1, w.stream.capacity);
      EvictedEmpty(w.stream, w.Upto());
    }
  }

  lemma EvictedEmpty(s: Stream, upto: nat)
    ensures Evicted(s, upto) == {} <==> s.Oldest() <= upto
  {
    assert upto in Evicted(s, upto) <==> upto < s.Oldest();
  }

  /** Every reconnection of the run finds what it needs still cached. */
  predicate AlwaysCached(env: Env, s: Stream, steps: seq<Step>) {
    steps != [] ==>
      var n := |steps| - 1;
      AlwaysCached(env, s, steps[..n]) && StillCached(Exec(env, s, steps[..n]), steps[n])
  }

  /** Nothing is ever lost exactly when nothing was evicted before the stream was
      joined and, at each reconnection, what follows the last event is still cached. */
  lemma {:induction false} NothingLostIff(env: Env, s: Stream, steps: seq<Step>)
    requires Representable(s)
    ensures
      var w := Exec(env, s, steps);
      && (w.lost == {} <==> s.Oldest() == 0 && AlwaysCached(env, s, steps))
      && w.stream.id == s.id && (s.id.None? ==> w.live)
  {
    if steps == [] {
      EvictedEmpty(s, 0);
    } else {
      var n := |steps| - 1;
      RunKeeps(env, s, steps[..n]);
      NothingLostIff(env, s, steps[..n]);
      NextLoses(env, Exec(env, s, steps[..n]), steps[n]);
    }
  }

  /** The end-to-end theorem: what the client has received is the beginning of the
      stream, without a gap. */
  lemma ReceivedIsInitialSegment(env: Env, s: Stream, steps: seq<Step>)
    requires Representable(s) && s.Oldest() == 0 && AlwaysCached(env, s, steps)
    ensures
      var w := Exec(env, s, steps);
      && NoGap(w) && w.Upto() <= |w.stream.history|
      && forall x: nat :: Has(w.received, x) <==> x < w.Upto()
  {
    RunKeeps(env, s, steps);
    NothingLostIff(env, s, steps);
    var w := Exec(env, s, steps);
    if w.received != [] {
      assert Authentic(w.stream, w.received[|w.received| - 1]);
    }
  }

  /** What was lost stays lost. */
  lemma {:induction false} LostForever(env: Env, s: Stream, steps: seq<Step>, more: seq<Step>, x: nat)
    requires Representable(s) && x in Exec(env, s, steps).lost
    ensures x in Exec(env, s, steps + more).lost && !Has(Exec(env, s, steps + more).received, x)
    decreases |more|
  {
    RunKeeps(env, s, steps + more);
    if more == [] {
      assert steps + more == steps;
    } else {
      var n := |more| - 1;
      LostForever(env, s, steps, more[..n], x);
      assert (steps + more)[..|steps| + n] == steps + more[..n];
      RunKeeps(env, s, steps + more[..n]);
      NothingLostIff(env, s, steps + more[..n]);
      NextLoses(env, Exec(env, s, steps + more[..n]), more[n]);
    }
  }

  /** Once everything on its way has arrived, the client has everything ever sent
      except what was lost. */
  lemma NothingElseMissing(env: Env, s: Stream, steps: seq<Step>)
    requires Representable(s)
    ensures
      var w := Exec(env, s, steps);
      w.Connected() && w.wire == [] && w.stream.link.queue == [] ==>
        forall x: nat :: x < |w.stream.history| ==> (Has(w.received, x) <==> x !in w.lost)
  {
    RunKeeps(env, s, steps);
    var w := Exec(env, s, steps);
    if w.Connected() && w.wire == [] && w.stream.link.queue == [] {
      assert w.wire + w.stream.link.queue == [];
    }
  }

  /** So a client that finds its stream ended has everything ever sent on it except
      what was lost, and nothing more is sent. */
  lemma EndIsComplete(env: Env, s: Stream, steps: seq<Step>)
    requires Representable(s) && Enabled(Exec(env, s, steps), End)
    ensures
      var w := Exec(env, s, steps);
      && (forall x: nat :: x < |w.stream.history| ==> (Has(w.received, x) <==> x !in w.lost))
      && forall step :: Next(env, w, step).stream.history == w.stream.history
  {
    NothingElseMissing(env, s, steps);
    var w := Exec(env, s, steps);
    forall step ensures Next(env, w, step).stream.history == w.stream.history {
      HistoryStays(env, w, step);
    }
  }

  lemma HistoryStays(env: Env, w: World, step: Step)
    requires !w.live
    ensures Next(env, w, step).stream.history == w.stream.history
  {
    if step.Reach? && Enabled(w, step) {
      var id := w.client.attempts[|w.client.attempts| - 1];
      ResumeExactly(w.stream, 0, w.stream.capacity);
      if id.Some? && FromString(id.value).Ok? {
        ResumeExactly(w.stream, FromString(id.value).value.index, w.stream.capacity);
      }
    }
  }

  // Duplicates

  /** Events received with the index of the one before. */
  function Duplicates(received: seq<SessionMessage>): nat {
    if |received| <= 1 then 0
    else
      var n := |received| - 1;
      Duplicates(received[..n]) + if received[n].eventId.index == received[n - 1].eventId.index then 1 else 0
  }

  function Reconnections(consumed: seq<SSE.Ready<Failure>>): nat {
    if consumed == [] then 0
    else Reconnections(consumed[..|consumed| - 1]) + if consumed[|consumed| - 1].Reconnected? then 1 else 0
  }

  predicate AboutToRepeat(w: World) {
    w.Connected() && w.received != [] && NextIndex(w) < w.Upto()
  }

  ghost predicate FewDuplicates(w: World) {
    Duplicates(w.received) + (if AboutToRepeat(w) then 1 else 0) <= Reconnections(w.client.consumed)
  }

  lemma ReconnectionsSnoc(consumed: seq<SSE.Ready<Failure>>, r: SSE.Ready<Failure>)
    ensures Reconnections(consumed + [r]) == Reconnections(consumed) + if r.Reconnected? then 1 else 0
  {
    assert (consumed + [r])[..|consumed|] == consumed;
  }

  lemma DeliverRepeats(env: Env, w: World)
    requires Inv(w) && FewDuplicates(w) && Enabled(w, Deliver)
    ensures FewDuplicates(Take(env, w, Deliver))
  {
    var w' := Take(env, w, Deliver);
    DeliverMoves(env, w);
    DeliverIndex(w, w');
    DeliverCounts(w, w', SSE.Item(EventOf(env, w.wire[0])));
  }

  /** After a delivery the next event is not the one just received. */
  lemma DeliverIndex(w: World, w': World)
    requires Inv(w) && Enabled(w, Deliver)
    requires w'.received == w.received + [w.wire[0]] && w'.lost == w.lost && w'.stream == w.stream
    requires NextIndex(w') == NextIndex(w) + 1
    ensures w'.Upto() == NextIndex(w') && w.wire[0].eventId.index == NextIndex(w)
  {
    WireHead(w);
    DeliverReceives(w, w');
  }

  /** It repeats the last event only if that was about to happen. */
  lemma DeliverCounts(w: World, w': World, r: SSE.Ready<Failure>)
    requires FewDuplicates(w) && Enabled(w, Deliver) && r.Item?
    requires w'.received == w.received + [w.wire[0]] && w'.client.consumed == w.client.consumed + [r]
    requires w'.Upto() == NextIndex(w') && w.wire[0].eventId.index == NextIndex(w)
    ensures FewDuplicates(w')
  {
    ReconnectionsSnoc(w.client.consumed, r);
    DuplicatesSnoc(w.received, w.wire[0]);
  }

  lemma DeliverMoves(env: Env, w: World)
    requires Enabled(w, Deliver)
    ensures
      var w' := Take(env, w, Deliver);
      && NextIndex(w') == NextIndex(w) + 1 && w'.received == w.received + [w.wire[0]]
      && w'.lost == w.lost && w'.stream == w.stream
      && w'.client.consumed == w.client.consumed + [SSE.Item(EventOf(env, w.wire[0]))]
  {
  }

  lemma DuplicatesSnoc(received: seq<SessionMessage>, m: SessionMessage)
    ensures Duplicates(received + [m]) == Duplicates(received) +
      if received != [] && received[|received| - 1].eventId.index == m.eventId.index then 1 else 0
  {
    assert (received + [m])[..|received|] == received;
  }

  lemma FeedRepeats(env: Env, w: World, r: SSE.Ready<Failure>)
    requires Duplicates(w.received) <= Reconnections(w.client.consumed)
    requires w.client.Wants(r) && !r.Item? && (r.StreamEnd? ==> !AboutToRepeat(w))
    ensures FewDuplicates(Feed(env, w, r))
  {
    ReconnectionsSnoc(w.client.consumed, r);
  }

  lemma EndRepeats(env: Env, w: World)
    requires FewDuplicates(w) && Enabled(w, End)
    ensures FewDuplicates(Take(env, w, End))
  {
    ReconnectionsSnoc(w.client.consumed, SSE.StreamEnd);
    assert NextIndex(Take(env, w, End)) == NextIndex(w);
  }

  /** What arrives repeats the last event exactly if that was about to happen. */
  lemma DeliverRepeatsIff(env: Env, w: World)
    requires Inv(w) && Enabled(w, Deliver)
    ensures Duplicates(Take(env, w, Deliver).received) == Duplicates(w.received) + if AboutToRepeat(w) then 1 else 0
  {
    WireHead(w);
    DeliverMoves(env, w);
    DuplicatesSnoc(w.received, w.wire[0]);
  }

  /** A reconnection is about to repeat the last event received exactly if that is
      still cached. */
  lemma RepeatsIff(env: Env, w: World)
    requires Inv(w) && Enabled(w, Reach(false)) && w.received != [] && w.live
    ensures AboutToRepeat(Next(env, w, Reach(false))) <==> w.stream.Oldest() < w.Upto()
  {
    ReachIs(env, w, false);
    OwnIdParses(w);
    ResumeFills(env, w, w.Upto() - 1);
  }

  /** How often an event arrived when the last one was about to be repeated. */
  function Repeats(env: Env, s: Stream, steps: seq<Step>): nat {
    if steps == [] then 0
    else
      var n := |steps| - 1;
      var w := Exec(env, s, steps[..n]);
      Repeats(env, s, steps[..n]) + if steps[n] == Deliver && Enabled(w, Deliver) && AboutToRepeat(w) then 1 else 0
  }

  lemma ReceivesOnlyByDelivery(env: Env, w: World, step: Step)
    requires step != Deliver
    ensures Next(env, w, step).received == w.received
  {
  }

  /** Over every run the repeats are exactly those arrivals. */
  lemma {:induction false} DuplicatesExact(env: Env, s: Stream, steps: seq<Step>)
    requires Representable(s)
    ensures Duplicates(Exec(env, s, steps).received) == Repeats(env, s, steps)
  {
    if steps != [] {
      var n := |steps| - 1;
      var w := Exec(env, s, steps[..n]);
      RunKeeps(env, s, steps[..n]);
      DuplicatesExact(env, s, steps[..n]);
      if steps[n] != Deliver {
        ReceivesOnlyByDelivery(env, w, steps[n]);
      } else if Enabled(w, Deliver) {
        DeliverRepeatsIff(env, w);
      }
    }
  }

  lemma SendRepeats(env: Env, w: World, m: Message, wake: Streams.Wake)
    requires Inv(w) && FewDuplicates(w) && Enabled(w, Send(m, wake))
    ensures FewDuplicates(Take(env, w, Send(m, wake)))
  {
    if w.Connected() {
      SendPasses(w.stream.link, SessionMessage(EventId(w.stream.id, |w.stream.history|), m), wake);
    }
  }

  lemma NextRepeats(env: Env, w: World, step: Step)
    requires Inv(w) && FewDuplicates(w)
    ensures FewDuplicates(Next(env, w, step))
  {
    if Enabled(w, step) {
      match step
      case Send(m, wake) => SendRepeats(env, w, m, wake);
      case Pump =>
      case Deliver => DeliverRepeats(env, w);
      case Break => FeedRepeats(env, w.(wire := []), SSE.StreamError);
      case Notice =>
      case DropStream =>
      case End => EndRepeats(env, w);
      case Reach(replyLost) => ReachRepeats(env, w, replyLost);
      case Miss => FeedRepeats(env, w, SSE.ReconnectFailed(Unreachable));
      case Wake => FeedRepeats(env, w, SSE.Slept);
    }
  }

  lemma ResumedRepeats(env: Env, w: World, index: nat, replyLost: bool)
    requires FewDuplicates(w) && w.client.state.Retrying?
    ensures FewDuplicates(Resumed(env, w, index, replyLost))
  {
    var (s, r) := w.stream.Resume(index, w.stream.capacity);
    if r.Err? || replyLost {
      FeedRepeats(env, w.(stream := s), SSE.ReconnectFailed(Refused));
    } else {
      FeedRepeats(env, w.(stream := s, wire := [], lost := w.lost + Evicted(w.stream, w.Upto())), SSE.Reconnected);
    }
  }

  lemma ReachRepeats(env: Env, w: World, replyLost: bool)
    requires Inv(w) && FewDuplicates(w) && Enabled(w, Reach(replyLost))
    ensures FewDuplicates(Take(env, w, Reach(replyLost)))
  {
    ReachIs(env, w, replyLost);
    if w.received == [] && w.stream.id.Some? && !replyLost {
      FeedRepeats(env, w.(strayed := true), SSE.Reconnected);
    } else if w.received == [] && w.stream.id.None? {
      ResumedRepeats(env, w, 0, replyLost);
    } else if w.received != [] && w.live {
      ResumedRepeats(env, w, w.Upto() - 1, replyLost);
    } else {
      FeedRepeats(env, w, SSE.ReconnectFailed(Refused));
    }
  }

  /** Only the last event received is ever received again, and at most once for
      each reconnection that succeeded. */
  lemma {:induction false} DuplicatesBounded(env: Env, s: Stream, steps: seq<Step>)
    requires Representable(s)
    ensures FewDuplicates(Exec(env, s, steps))
  {
    if steps == [] {
      JoinKeeps(s);
    } else {
      var n := |steps| - 1;
      RunKeeps(env, s, steps[..n]);
      DuplicatesBounded(env, s, steps[..n]);
      NextRepeats(env, Exec(env, s, steps[..n]), steps[n]);
    }
  }

  // Reconnections

  /** A client that has received something is let back exactly as long as the
      stream exists: its own id is never refused. Its stream was dropped with the
      last resource of its request if it does not. */
  lemma LetBackIff(env: Env, w: World)
    requires Inv(w) && Enabled(w, Reach(false)) && w.received != []
    ensures Next(env, w, Reach(false)).Connected() <==> w.live
    ensures w.live ==> Next(env, w, Reach(false)).stream.link.queue == w.stream.ReplayFrom(w.Upto() - 1)
  {
    ReachIs(env, w, false);
    if w.live {
      OwnIdParses(w);
      ResumeExactly(w.stream, w.Upto() - 1, w.stream.capacity);
      ResumeKeeps(env, w, w.Upto() - 1);
    }
  }

  /** A client that loses a request-wise stream before its first event is sent to
      the common stream instead; nothing else sends it there. */
  lemma StraysIff(env: Env, w: World, step: Step)
    requires Inv(w) && !w.strayed
    ensures Next(env, w, step).strayed <==>
      step == Reach(false) && Enabled(w, step) && w.received == [] && w.stream.id.Some?
  {
  }

  /** A client that is away has received nothing of the stream, and stays away. */
  lemma {:induction false} StrayedEmpty(env: Env, s: Stream, steps: seq<Step>)
    requires Representable(s)
    ensures Exec(env, s, steps).strayed ==> Exec(env, s, steps).received == []
  {
    if steps != [] {
      var n := |steps| - 1;
      RunKeeps(env, s, steps[..n]);
      StrayedEmpty(env, s, steps[..n]);
      StaysAway(env, Exec(env, s, steps[..n]), steps[n]);
    }
  }

  lemma StaysAway(env: Env, w: World, step: Step)
    requires Inv(w) && (w.strayed ==> w.received == [])
    ensures w.strayed ==> Next(env, w, step).strayed
    ensures Next(env, w, step).strayed ==> Next(env, w, step).received == []
  {
    if !w.strayed {
      StraysIff(env, w, step);
    }
  }

  /** It never comes back: no event of the request-wise stream reaches it. */
  lemma {:induction false} StrayedGetsNothing(env: Env, s: Stream, steps: seq<Step>, more: seq<Step>)
    requires Representable(s) && Exec(env, s, steps).strayed
    ensures Exec(env, s, steps + more).strayed && Exec(env, s, steps + more).received == []
    decreases |more|
  {
    StrayedEmpty(env, s, steps + more);
    if more == [] {
      assert steps + more == steps;
    } else {
      var n := |more| - 1;
      StrayedGetsNothing(env, s, steps, more[..n]);
      assert (steps + more)[..|steps| + n] == steps + more[..n];
      RunKeeps(env, s, steps + more[..n]);
      StaysAway(env, Exec(env, s, steps + more[..n]), more[n]);
    }
  }

  // Messages

  /** The transport's text form is faithful. */
  ghost predicate Faithful(env: Env) {
    forall m :: env.parse(env.ser(m)) == Some(m)
  }

  /** The client's application is handed the messages of the events received, in
      order, and the error of an outage it gave up on. */
  predicate HandedOver(w: World) {
    && |w.client.items| == |w.received| + (if w.client.state == SSE.Terminated then 1 else 0)
    && forall j :: 0 <= j < |w.received| ==> w.client.items[j] == Ok(w.received[j].message)
  }

  lemma FeedHandsOver(env: Env, w: World, r: SSE.Ready<Failure>)
    requires HandedOver(w) && !r.Item?
    ensures HandedOver(Feed(env, w, r))
  {
  }

  lemma ResumedHandsOver(env: Env, w: World, index: nat, replyLost: bool)
    requires HandedOver(w)
    ensures HandedOver(Resumed(env, w, index, replyLost))
  {
    var s := w.stream.Resume(index, w.stream.capacity).0;
    FeedHandsOver(env, w.(stream := s), SSE.ReconnectFailed(Refused));
    FeedHandsOver(env, w.(stream := s, wire := [], lost := w.lost + Evicted(w.stream, w.Upto())), SSE.Reconnected);
  }

  lemma ReachHandsOver(env: Env, w: World, replyLost: bool)
    requires Inv(w) && HandedOver(w) && Enabled(w, Reach(replyLost))
    ensures HandedOver(Take(env, w, Reach(replyLost)))
  {
    ReachIs(env, w, replyLost);
    FeedHandsOver(env, w, SSE.ReconnectFailed(Refused));
    FeedHandsOver(env, w.(strayed := true), SSE.Reconnected);
    ResumedHandsOver(env, w, if w.received == [] then 0 else w.Upto() - 1, replyLost);
  }

  lemma NextHandsOver(env: Env, w: World, step: Step)
    requires Faithful(env) && Inv(w) && HandedOver(w)
    ensures HandedOver(Next(env, w, step))
  {
    if Enabled(w, step) {
      match step
      case Break => FeedHandsOver(env, w.(wire := []), SSE.StreamError);
      case End => FeedHandsOver(env, w, SSE.StreamEnd);
      case Reach(replyLost) => ReachHandsOver(env, w, replyLost);
      case Miss => FeedHandsOver(env, w, SSE.ReconnectFailed(Unreachable));
      case Wake => FeedHandsOver(env, w, SSE.Slept);
      case _ =>
    }
  }

  lemma {:induction false} RunHandsOver(env: Env, s: Stream, steps: seq<Step>)
    requires Faithful(env) && Representable(s)
    ensures HandedOver(Exec(env, s, steps))
  {
    if steps != [] {
      RunKeeps(env, s, steps[..|steps| - 1]);
      RunHandsOver(env, s, steps[..|steps| - 1]);
      NextHandsOver(env, Exec(env, s, steps[..|steps| - 1]), steps[|steps| - 1]);
    }
  }
}
