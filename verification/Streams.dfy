/** One resumable stream of a streamable-HTTP session: its bounded replay cache
    and the channel to whoever is listening
    (`CachedTx` in crates/rmcp/src/transport/streamable_http_server/session.rs).

    `Streams` keeps the whole history of a stream and says what the cache and the
    channel must be; `CachedStreams` has the class that keeps only the cache.
  */
module Streams {
  import opened JsonRpc
  import opened EventIds

  datatype SessionMessage = SessionMessage(eventId: EventId, message: Message)

  datatype SessionError =
    | ChannelClosed(id: Option<nat>)
    | InvalidEventId

  /** A bounded channel: what was sent and not yet taken, and whether its receiver is alive. */
  datatype Link = Link(capacity: nat, queue: seq<SessionMessage>, open: bool)
  {
    /** Sending waits exactly when the receiver is alive and has no room. */
    predicate MustWait() {
      open && |queue| >= capacity
    }

    /** What the receiver does: takes messages, or goes away with what was queued. */
    function Receive(act: Wake): Link {
      match act
      case Drops => Link(capacity, [], false)
      case Takes(n) => this.(queue := if n <= |queue| then queue[n..] else [])
    }

    /** What ends a wait: the receiver takes enough to make room, and maybe more, or goes away. */
    function MakeRoom(wake: Wake): Link
      requires MustWait()
    {
      match wake
      case Drops => Receive(Drops)
      case Takes(n) => Receive(Takes(|queue| - capacity + 1 + n))
    }

    /** Sending; `wake` is what the receiver does if the send has to wait for it. */
    function Accept(m: SessionMessage, wake: Wake): Link {
      var ready := if MustWait() then MakeRoom(wake) else this;
      if ready.open then ready.(queue := ready.queue + [m]) else ready
    }
  }

  /** A channel never holds more than its capacity. */
  lemma AcceptBounded(link: Link, m: SessionMessage, wake: Wake)
    requires link.capacity >= 1 && |link.queue| <= link.capacity
    ensures |link.Accept(m, wake).queue| <= link.capacity
    ensures link.Accept(m, wake).capacity == link.capacity
  {
  }

  datatype Wake = Takes(count: nat) | Drops

  /** The receiver takes messages from the front, in order, or goes away with all of them. */
  lemma ReceiveTakes(link: Link, act: Wake)
    ensures
      var after := link.Receive(act);
      && after.capacity == link.capacity
      && (act.Drops? ==> !after.open && after.queue == [])
      && (act.Takes? ==>
            && after.open == link.open && |after.queue| <= |link.queue|
            && after.queue == link.queue[|link.queue| - |after.queue|..]
            && (|link.queue| - |after.queue| == act.count || (after.queue == [] && |link.queue| <= act.count)))
  {
  }

  /** What a send does to a channel. With room it appends. Without, it waits: until
      the receiver has taken enough from the front, and then it appends, or until the
      receiver is gone. A message for a live receiver is never dropped. */
  lemma SendReaches(link: Link, m: SessionMessage, wake: Wake)
    requires link.capacity >= 1 && |link.queue| <= link.capacity
    ensures
      var after := link.Accept(m, wake);
      var full := |link.queue| == link.capacity;
      && (!link.open ==> after == link)
      && (link.open && !full ==> after.open && after.queue == link.queue + [m])
      && (link.open && full && wake.Drops? ==> !after.open && after.queue == [])
      && (link.open && full && wake.Takes? ==>
            && after.open && 1 <= |after.queue| <= link.capacity
            && after.queue == link.queue[|link.queue| + 1 - |after.queue|..] + [m])
  {
  }

  /** `history` is everything ever sent on the stream. */
  datatype Stream = Stream(id: Option<nat>, capacity: nat, history: seq<Message>, link: Link)
  {
    /** The k-th message sent carries index k. */
    function Numbered(): seq<SessionMessage> {
      seq(|history|, k requires 0 <= k < |history| => SessionMessage(EventId(id, k), history[k]))
    }

    /** The index of the oldest message that can still be replayed. */
    function Oldest(): (r: nat)
      ensures r <= |history|
    {
      if |history| <= capacity then 0 else |history| - capacity
    }

    function Cached(): seq<SessionMessage> {
      Numbered()[Oldest()..]
    }

    function Send(m: Message, wake: Wake): Stream {
      this.(history := history + [m],
            link := link.Accept(SessionMessage(EventId(id, |history|), m), wake))
    }

    /** Everything still cached from `index` on, with its original ids. */
    function ReplayFrom(index: nat): seq<SessionMessage> {
      var from := if index < Oldest() then Oldest() else index;
      if from <= |history| then Numbered()[from..] else []
    }

    /** Replays into the current channel. */
    function Sync(index: nat): (Stream, Result<(), SessionError>) {
      if history != [] && index > |history| then (this, Err(InvalidEventId))
      else if ReplayFrom(index) == [] then (this, Ok(()))
      else if !link.open then (this, Err(ChannelClosed(id)))
      else (this.(link := link.(queue := link.queue + ReplayFrom(index))), Ok(()))
    }

    /** Swaps in a fresh channel and replays into it. When that fails, the fresh
        receiver is dropped, so the stream is left without a listener. */
    function Resume(index: nat, channelCapacity: nat): (Stream, Result<(), SessionError>) {
      var (s, r) := this.(link := Link(channelCapacity, [], true)).Sync(index);
      if r.Ok? then (s, r) else (s.(link := s.link.Receive(Drops)), r)
    }
  }

  /** What a resume replays, when it fails, and what a failure costs. */
  lemma ResumeExactly(s: Stream, index: nat, channelCapacity: nat)
    ensures
      var (s', r) := s.Resume(index, channelCapacity);
      var invalid := s.history != [] && index > |s.history|;
      && (r == Err(InvalidEventId) <==> invalid)
      && (r == Ok(()) <==> !invalid)
      && s'.history == s.history && s'.capacity == s.capacity && s'.id == s.id
      && (r.Ok? ==> s'.link == Link(channelCapacity, s.ReplayFrom(index), true))
      && (r.Err? ==> s'.link == Link(channelCapacity, [], false))
  {
    assert [] + s.ReplayFrom(index) == s.ReplayFrom(index);
  }

  /** A failed resume detaches even a live listener: later messages reach nobody
      until the stream is resumed again. */
  lemma InvalidResumeDetaches(s: Stream, index: nat, channelCapacity: nat, m: Message, wake: Wake)
    requires s.history != [] && index > |s.history|
    ensures s.Resume(index, channelCapacity).0.Send(m, wake).link == Link(channelCapacity, [], false)
  {
    ResumeExactly(s, index, channelCapacity);
  }

  /** The replay of any stream fits the fresh channel, so no send of it waits. */
  lemma ReplayNeverWaits(s: Stream, index: nat, channelCapacity: nat, k: nat)
    requires s.capacity <= channelCapacity && k < |s.ReplayFrom(index)|
    ensures !Link(channelCapacity, s.ReplayFrom(index)[..k], true).MustWait()
  {
  }

  /** So a listener finds each message sent at the end of its channel, under the next index. */
  lemma SendIsHeard(s: Stream, m: Message, wake: Wake)
    requires s.link.capacity >= 1 && |s.link.queue| <= s.link.capacity
    requires s.link.open && (wake.Takes? || |s.link.queue| < s.link.capacity)
    ensures
      var after := s.Send(m, wake).link;
      && after.open && after.queue != []
      && after.queue[|after.queue| - 1] == SessionMessage(EventId(s.id, |s.history|), m)
  {
    SendReaches(s.link, SessionMessage(EventId(s.id, |s.history|), m), wake);
  }

  /** The cache is the last `capacity` messages, consecutively numbered. */
  lemma CacheIsSuffix(s: Stream)
    ensures
      var cache := s.Cached();
      && |cache| == (if |s.history| <= s.capacity then |s.history| else s.capacity)
      && forall k :: 0 <= k < |cache| ==>
           && cache[k].eventId == EventId(s.id, |s.history| - |cache| + k)
           && cache[k].message == s.history[|s.history| - |cache| + k]
  {
  }

  /** A replay is the cached part of the history from the requested index on, inclusive. */
  lemma ReplayIsHistory(s: Stream, index: nat)
    ensures
      var from := if index < s.Oldest() then s.Oldest() else index;
      var replay := s.ReplayFrom(index);
      && |replay| == (if from <= |s.history| then |s.history| - from else 0)
      && forall k :: 0 <= k < |replay| ==>
           replay[k] == SessionMessage(EventId(s.id, from + k), s.history[from + k])
  {
  }
}

module CachedStreams {
  import opened JsonRpc
  import opened EventIds
  import opened Streams

  class CachedTx {
    const httpRequestId: Option<nat>
    const capacity: nat
    var tx: Link
    var cache: seq<SessionMessage>
    ghost var history: seq<Message>

    constructor (tx: Link, httpRequestId: Option<nat>)
      requires tx.capacity >= 1 && tx.queue == []
      ensures Valid() && this.tx == tx && this.httpRequestId == httpRequestId
      ensures capacity == tx.capacity && history == []
    {
      this.tx := tx;
      this.httpRequestId := httpRequestId;
      capacity := tx.capacity;
      cache, history := [], [];
    }

    ghost function View(): Stream
      reads this
    {
      Stream(httpRequestId, capacity, history, tx)
    }

    /** The cache is never empty once a message was sent, and holds exactly the recent history. */
    ghost predicate Valid()
      reads this
    {
      capacity >= 1 && cache == View().Cached()
    }

    method Send(message: Message, wake: Wake)
      requires Valid()
      modifies this
      ensures Valid() && View() == old(View()).Send(message, wake)
    {
      var index := if cache == [] then 0 else cache[|cache| - 1].eventId.index + 1;
      var m := SessionMessage(EventId(httpRequestId, index), message);
      ghost var numbered := View().Numbered();
      if |cache| >= capacity {
        cache := cache[1..] + [m];
      } else {
        cache := cache + [m];
      }
      history := history + [message];
      assert View().Numbered() == numbered + [m];
      tx := tx.Accept(m, wake);
    }

    /** What the receiving end of the channel does. */
    method Receive(act: Wake)
      requires Valid()
      modifies this`tx
      ensures Valid() && View() == old(View()).(link := old(tx).Receive(act))
    {
      tx := tx.Receive(act);
    }

    /** `tx.send(m).await` where the channel has room. */
    method SendReady(m: SessionMessage) returns (sent: bool)
      requires !tx.MustWait()
      modifies this`tx
      ensures sent == old(tx).open
      ensures tx == if sent then old(tx).(queue := old(tx).queue + [m]) else old(tx)
    {
      sent := tx.open;
      tx := tx.Accept(m, Drops);
    }

    /** Sends each message in turn, until one finds the receiver gone. */
    method SendEach(messages: seq<SessionMessage>) returns (sent: bool)
      requires |tx.queue| + |messages| <= tx.capacity
      modifies this`tx
      ensures sent == (messages == [] || old(tx).open)
      ensures tx == if sent then old(tx).(queue := old(tx).queue + messages) else old(tx)
    {
      sent := true;
      for k := 0 to |messages|
        invariant sent && (k > 0 ==> tx.open)
        invariant tx == old(tx).(queue := old(tx).queue + messages[..k])
      {
        sent := SendReady(messages[k]);
        if !sent {
          return;
        }
        assert messages[..k + 1] == messages[..k] + [messages[k]];
      }
      assert messages[..|messages|] == messages;
    }

    /** Replays the cache from `index`, into a channel that has room for all of it. */
    method Sync(index: nat) returns (r: Result<(), SessionError>)
      requires Valid() && |tx.queue| + |cache| <= tx.capacity
      modifies this`tx
      ensures Valid() && (View(), r) == old(View()).Sync(index)
    {
      if cache == [] {
        return Ok(());
      }
      var front := cache[0].eventId.index;
      var syncIndex := if index < front then 0 else index - front;
      if syncIndex > |cache| {
        return Err(InvalidEventId);
      }
      assert cache[syncIndex..] == View().ReplayFrom(index);
      assert tx.queue + [] == tx.queue;
      var sent := SendEach(cache[syncIndex..]);
      return if sent then Ok(()) else Err(ChannelClosed(httpRequestId));
    }
  }
}
