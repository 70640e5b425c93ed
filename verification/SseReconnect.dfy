/** The reconnecting SSE client stream and its retry policies
    (crates/rmcp/src/transport/common/client_side_sse.rs). */
module RetryPolicies {
  import opened JsonRpc

  /** Durations are in nanoseconds; `Duration` holds 2^64 seconds less one nanosecond. */
  const DURATION_LIMIT: nat := U64_LIMIT * 1_000_000_000

  /** `Panic`: the arithmetic overflows. */
  datatype Decision = GiveUp | Delay(interval: nat) | Panic

  function Pow2(n: nat): (p: nat)
    ensures p >= 1
  {
    if n == 0 then 1 else 2 * Pow2(n - 1)
  }

  lemma {:induction false} Pow2Monotonic(a: nat, b: nat)
    requires a <= b
    ensures Pow2(a) <= Pow2(b)
    decreases b
  {
    if a < b {
      Pow2Monotonic(a, b - 1);
    }
  }

  datatype RetryPolicy =
    | FixedInterval(maxTimes: Option<nat>, duration: nat)
    | ExponentialBackoff(maxTimes: Option<nat>, baseDuration: nat)
    | Custom(decide: nat -> Decision)
  {
    /** `retry(current_times)`: `2u32.pow(current_times as u32)` overflows for an
        exponent of 32 or more, and so may the multiplication of the duration. */
    function Retry(currentTimes: nat): Decision {
      match this
      case FixedInterval(limit, duration) =>
        if limit.Some? && currentTimes >= limit.value then GiveUp else Delay(duration)
      case ExponentialBackoff(limit, base) =>
        if limit.Some? && currentTimes >= limit.value then GiveUp
        else
          var exponent := currentTimes % U32_LIMIT;
          if exponent >= 32 || base * Pow2(exponent) >= DURATION_LIMIT then Panic
          else Delay(base * Pow2(exponent))
      case Custom(decide) => decide(currentTimes)
    }

    /** The longest interval a limited backoff computes, 2^(limit - 1) times the
        base, can be represented. */
    predicate IntervalsFit()
      requires ExponentialBackoff?
    {
      maxTimes.Some? && (maxTimes.value <= 1 || (maxTimes.value <= 32 && Fits(maxTimes.value - 1)))
    }

    predicate Fits(times: nat)
      requires ExponentialBackoff?
    {
      baseDuration * Pow2(times) < DURATION_LIMIT
    }

    predicate LimitedTo(m: nat) {
      !Custom? && maxTimes == Some(m) && (ExponentialBackoff? ==> IntervalsFit())
    }
  }

  lemma ScaledMonotonic(a: nat, x: nat, y: nat)
    requires x <= y
    ensures a * x <= a * y
  {
  }

  lemma FitsBelow(p: RetryPolicy, k: nat, n: nat)
    requires p.ExponentialBackoff? && k <= n && p.Fits(n)
    ensures p.Fits(k)
  {
    Pow2Monotonic(k, n);
    ScaledMonotonic(p.baseDuration, Pow2(k), Pow2(n));
  }

  /** Within its limit a policy gives up exactly at the limit and never overflows. */
  lemma LimitedRetry(p: RetryPolicy, m: nat, k: nat)
    requires p.LimitedTo(m) && k > 0
    ensures p.Retry(k) == GiveUp <==> k >= m
    ensures p.Retry(k) != Panic
    ensures p.ExponentialBackoff? && k < m ==> p.Retry(k) == Delay(p.baseDuration * Pow2(k))
  {
    if p.ExponentialBackoff? && k < m {
      FitsBelow(p, k, m - 1);
    }
  }

  /** A fixed interval waits that interval, up to its limit if it has one. */
  lemma FixedRetry(p: RetryPolicy, k: nat)
    requires p.FixedInterval?
    ensures p.Retry(k) == if p.maxTimes.Some? && p.maxTimes.value <= k then GiveUp else Delay(p.duration)
  {
  }

  /** A backoff below its limit doubles its interval with each failure, as long as it fits. */
  lemma {:induction false} BackoffDoubles(p: RetryPolicy, k: nat)
    requires p.ExponentialBackoff? && k + 1 < 32 && p.Fits(k + 1)
    requires p.maxTimes.Some? ==> k + 1 < p.maxTimes.value
    ensures p.Retry(0) == Delay(p.baseDuration)
    ensures p.Retry(k).Delay? && p.Retry(k + 1) == Delay(2 * p.Retry(k).interval)
  {
    FitsBelow(p, 0, k + 1);
    FitsBelow(p, k, k + 1);
    assert Pow2(0) == 1;
    Doubled(p.baseDuration, Pow2(k));
  }

  lemma Doubled(a: nat, b: nat)
    ensures a * (2 * b) == 2 * (a * b)
  {
  }
}

module SseReconnect {
  import opened JsonRpc
  import opened RetryPolicies

  const NANOS_PER_MILLI: nat := 1_000_000

  type Millis = n: nat | n < U64_LIMIT

  datatype Sse = Sse(id: Option<string>, retry: Option<Millis>, data: Option<string>)

  /** What a poll of the inner stream, of the reconnection or of the timer yields. */
  datatype Ready<E> =
    | Item(sse: Sse)
    | StreamError
    | StreamEnd
    | Reconnected
    | ReconnectFailed(error: E)
    | Slept

  datatype State =
    | Connected
    | Retrying(retryTimes: nat)
    | WaitingNextRetry(sleep: nat, retryTimes: nat)
    | Terminated
    | Panicked

  type Parser<M> = string -> Option<M>

  /** The stream, what it has been given and what it has done: items it yielded,
      the `Last-Event-ID` of each reconnection it started, its sleeps. */
  datatype Machine<M, E> = Machine(
    state: State,
    lastEventId: Option<string>,
    serverRetryInterval: Option<nat>,
    consumed: seq<Ready<E>>,
    items: seq<Result<M, E>>,
    attempts: seq<Option<string>>,
    waits: seq<nat>)
  {
    predicate Wants(r: Ready<E>) {
      match state
      case Connected => r.Item? || r.StreamError? || r.StreamEnd?
      case Retrying(_) => r.Reconnected? || r.ReconnectFailed?
      case WaitingNextRetry(_, _) => r.Slept?
      case Terminated => false
      case Panicked => false
    }

    function Receive(parse: Parser<M>, sse: Sse): Machine<M, E>
      requires state == Connected
    {
      var m := this.(
        consumed := consumed + [Item(sse)],
        serverRetryInterval := if sse.retry.Some? then Some(sse.retry.value * NANOS_PER_MILLI) else serverRetryInterval,
        lastEventId := if sse.id.Some? then sse.id else lastEventId);
      match ParseData(parse, sse)
      case Some(message) => m.(items := items + [Ok(message)])
      case None => m
    }

    function Reconnect(r: Ready<E>, retryTimes: nat): Machine<M, E> {
      this.(consumed := consumed + [r], attempts := attempts + [lastEventId], state := Retrying(retryTimes))
    }

    function Fail(policy: RetryPolicy, error: E): Machine<M, E>
      requires state.Retrying?
    {
      var m := this.(consumed := consumed + [ReconnectFailed(error)]);
      var times := state.retryTimes + 1;
      match policy.Retry(times)
      case Delay(interval) =>
        var sleep := AtLeast(serverRetryInterval, interval);
        m.(state := WaitingNextRetry(sleep, times), waits := waits + [sleep])
      case GiveUp => m.(state := Terminated, items := items + [Err(error)])
      case Panic => m.(state := Panicked)
    }

    function Advance(policy: RetryPolicy, parse: Parser<M>, r: Ready<E>): Machine<M, E>
      requires Wants(r)
    {
      match r
      case Item(sse) => Receive(parse, sse)
      case StreamError => Reconnect(r, 0)
      case StreamEnd => this.(consumed := consumed + [r])
      case Reconnected => this.(consumed := consumed + [r], state := Connected)
      case ReconnectFailed(error) => Fail(policy, error)
      case Slept => Reconnect(r, state.retryTimes)
    }

    /** A result the stream is not polling for does not reach it. */
    function Next(policy: RetryPolicy, parse: Parser<M>, r: Ready<E>): Machine<M, E> {
      if Wants(r) then Advance(policy, parse, r) else this
    }
  }

  function ParseData<M>(parse: Parser<M>, sse: Sse): Option<M> {
    if sse.data.Some? then parse(sse.data.value) else None
  }

  function AtLeast(serverInterval: Option<nat>, interval: nat): nat {
    if serverInterval.Some? && serverInterval.value > interval then serverInterval.value else interval
  }

  function Fresh<M, E>(): Machine<M, E> {
    Machine(Connected, None, None, [], [], [], [])
  }

  function Run<M, E>(policy: RetryPolicy, parse: Parser<M>, rs: seq<Ready<E>>): Machine<M, E> {
    if rs == [] then Fresh()
    else Run(policy, parse, rs[..|rs| - 1]).Next(policy, parse, rs[|rs| - 1])
  }

  lemma RunSnoc<M, E>(policy: RetryPolicy, parse: Parser<M>, rs: seq<Ready<E>>, r: Ready<E>)
    ensures Run(policy, parse, rs + [r]) == Run(policy, parse, rs).Next(policy, parse, r)
  {
    assert (rs + [r])[..|rs|] == rs;
  }

  // What a trace of results means, read off the trace alone

  function LatestId<E>(trace: seq<Ready<E>>): Option<string> {
    if trace == [] then None
    else
      var r := trace[|trace| - 1];
      if r.Item? && r.sse.id.Some? then r.sse.id else LatestId(trace[..|trace| - 1])
  }

  function LatestRetry<E>(trace: seq<Ready<E>>): Option<nat> {
    if trace == [] then None
    else
      var r := trace[|trace| - 1];
      if r.Item? && r.sse.retry.Some? then Some(r.sse.retry.value * NANOS_PER_MILLI)
      else LatestRetry(trace[..|trace| - 1])
  }

  /** The reconnections that have failed since the connection was lost. */
  function Failures<E>(trace: seq<Ready<E>>): nat {
    if trace == [] then 0
    else match trace[|trace| - 1]
      case ReconnectFailed(_) => Failures(trace[..|trace| - 1]) + 1
      case Slept => Failures(trace[..|trace| - 1])
      case _ => 0
  }

  /** The event payloads that parse, in arrival order, and the error of an outage
      that the policy gave up on. */
  function Items<M, E>(policy: RetryPolicy, parse: Parser<M>, trace: seq<Ready<E>>): seq<Result<M, E>> {
    if trace == [] then []
    else
      var init := trace[..|trace| - 1];
      Items(policy, parse, init) +
      match trace[|trace| - 1]
      case Item(sse) => (match ParseData(parse, sse) case Some(m) => [Ok(m)] case None => [])
      case ReconnectFailed(e) => if policy.Retry(Failures(trace)) == GiveUp then [Err(e)] else []
      case _ => []
  }

  /** One reconnection for each lost connection and each sleep, each with the id
      of the latest event that had one. */
  function Attempts<E>(trace: seq<Ready<E>>): seq<Option<string>> {
    if trace == [] then []
    else
      var init, r := trace[..|trace| - 1], trace[|trace| - 1];
      Attempts(init) + if r.StreamError? || r.Slept? then [LatestId(trace)] else []
  }

  function WaitAfter<E>(policy: RetryPolicy, trace: seq<Ready<E>>): seq<nat> {
    match policy.Retry(Failures(trace))
    case Delay(interval) => [AtLeast(LatestRetry(trace), interval)]
    case _ => []
  }

  /** One sleep for each failure the policy does not give up on. */
  function Waits<E>(policy: RetryPolicy, trace: seq<Ready<E>>): seq<nat> {
    if trace == [] then []
    else
      Waits(policy, trace[..|trace| - 1]) +
      if trace[|trace| - 1].ReconnectFailed? then WaitAfter(policy, trace) else []
  }

  function StateAfter<E>(policy: RetryPolicy, trace: seq<Ready<E>>): State {
    if trace == [] then Connected
    else match trace[|trace| - 1]
      case StreamError => Retrying(0)
      case Slept => Retrying(Failures(trace))
      case ReconnectFailed(_) =>
        (match policy.Retry(Failures(trace))
         case Delay(interval) => WaitingNextRetry(AtLeast(LatestRetry(trace), interval), Failures(trace))
         case GiveUp => Terminated
         case Panic => Panicked)
      case _ => Connected
  }

  function Meaning<M, E>(policy: RetryPolicy, parse: Parser<M>, trace: seq<Ready<E>>): Machine<M, E> {
    Machine(StateAfter(policy, trace), LatestId(trace), LatestRetry(trace), trace,
            Items(policy, parse, trace), Attempts(trace), Waits(policy, trace))
  }

  lemma StateCountsFailures<E>(policy: RetryPolicy, trace: seq<Ready<E>>)
    ensures
      var s := StateAfter(policy, trace);
      (s.Retrying? || s.WaitingNextRetry? ==> s.retryTimes == Failures(trace))
  {
  }

  lemma FailMeans<M, E>(policy: RetryPolicy, parse: Parser<M>, trace: seq<Ready<E>>, error: E)
    requires Meaning(policy, parse, trace).Wants(ReconnectFailed(error))
    ensures Meaning(policy, parse, trace).Fail(policy, error) == Meaning(policy, parse, trace + [ReconnectFailed(error)])
  {
    StateCountsFailures(policy, trace);
    var after := trace + [ReconnectFailed(error)];
    assert after[..|trace|] == trace;
    assert Failures(after) == Failures(trace) + 1 && LatestRetry(after) == LatestRetry(trace);
  }

  lemma NextMeans<M, E>(policy: RetryPolicy, parse: Parser<M>, trace: seq<Ready<E>>, r: Ready<E>)
    requires Meaning(policy, parse, trace).Wants(r)
    ensures Meaning(policy, parse, trace).Advance(policy, parse, r) == Meaning(policy, parse, trace + [r])
  {
    if r.ReconnectFailed? {
      FailMeans(policy, parse, trace, r.error);
    } else {
      StateCountsFailures(policy, trace);
      assert (trace + [r])[..|trace|] == trace;
    }
  }

  /** Whatever arrives, the stream's state and everything it has done are what the
      results it consumed mean: items, reconnections and waits included. */
  lemma {:induction false} RunMeansTrace<M, E>(policy: RetryPolicy, parse: Parser<M>, rs: seq<Ready<E>>)
    ensures Run(policy, parse, rs) == Meaning(policy, parse, Run(policy, parse, rs).consumed)
  {
    if rs != [] {
      var m := Run(policy, parse, rs[..|rs| - 1]);
      RunMeansTrace(policy, parse, rs[..|rs| - 1]);
      if m.Wants(rs[|rs| - 1]) {
        NextMeans(policy, parse, m.consumed, rs[|rs| - 1]);
      }
    }
  }

  // Waits and payloads

  /** The wait is the larger of the policy's interval and the server's, if it gave one. */
  predicate IsLarger(wait: nat, interval: nat, server: Option<nat>) {
    && interval <= wait && (server.Some? ==> server.value <= wait)
    && (wait == interval || server == Some(wait))
  }

  /** The latest retry value of the server, in milliseconds. */
  function LatestMillis<E>(trace: seq<Ready<E>>): Option<Millis> {
    if trace == [] then None
    else match trace[|trace| - 1]
      case Item(Sse(_, Some(millis), _)) => Some(millis)
      case _ => LatestMillis(trace[..|trace| - 1])
  }

  function Nanos(millis: Option<Millis>): Option<nat> {
    match millis case None => None case Some(n) => Some(n * 1_000_000)
  }

  lemma {:induction false} LatestRetryIs<E>(trace: seq<Ready<E>>)
    ensures LatestRetry(trace) == Nanos(LatestMillis(trace))
  {
    if trace != [] {
      LatestRetryIs(trace[..|trace| - 1]);
    }
  }

  /** After this part of the trace the k-th wait was due, and this is it. */
  ghost predicate WaitDue<E>(policy: RetryPolicy, trace: seq<Ready<E>>, k: nat, wait: nat) {
    && trace != [] && trace[|trace| - 1].ReconnectFailed?
    && |Waits(policy, trace[..|trace| - 1])| == k
    && policy.Retry(Failures(trace)).Delay?
    && IsLarger(wait, policy.Retry(Failures(trace)).interval, Nanos(LatestMillis(trace)))
  }

  lemma {:induction false} WaitsAreDue<E>(policy: RetryPolicy, trace: seq<Ready<E>>, k: nat)
    requires k < |Waits(policy, trace)|
    ensures exists n :: 0 <= n <= |trace| && WaitDue(policy, trace[..n], k, Waits(policy, trace)[k])
    decreases |trace|
  {
    var m := |trace| - 1;
    if k < |Waits(policy, trace[..m])| {
      WaitsAreDue(policy, trace[..m], k);
      var n :| 0 <= n <= m && WaitDue(policy, trace[..m][..n], k, Waits(policy, trace[..m])[k]);
      assert trace[..m][..n] == trace[..n];
      assert WaitDue(policy, trace[..n], k, Waits(policy, trace)[k]);
    } else {
      assert trace[..|trace|] == trace;
      LatestRetryIs(trace);
      assert WaitDue(policy, trace[..|trace|], k, Waits(policy, trace)[k]);
    }
  }

  /** Over every run the k-th wait follows the k-th failure that is not the last, and is
      the larger of what the policy answered and the latest value the server sent. */
  lemma EachWaitIsLarger<M, E>(policy: RetryPolicy, parse: Parser<M>, rs: seq<Ready<E>>, k: nat)
    requires k < |Run(policy, parse, rs).waits|
    ensures
      var s := Run(policy, parse, rs);
      exists n :: 0 <= n <= |s.consumed| && WaitDue(policy, s.consumed[..n], k, s.waits[k])
  {
    RunMeansTrace(policy, parse, rs);
    WaitsAreDue(policy, Run(policy, parse, rs).consumed, k);
  }

  /** The messages in the events of a trace, whatever ids or retry values they carry. */
  function Payloads<M, E>(parse: Parser<M>, trace: seq<Ready<E>>): seq<M> {
    if trace == [] then []
    else
      Payloads(parse, trace[..|trace| - 1]) +
      match trace[|trace| - 1]
      case Item(Sse(_, _, Some(text))) => (match parse(text) case Some(message) => [message] case None => [])
      case _ => []
  }

  function Messages<M, E>(items: seq<Result<M, E>>): seq<M> {
    if items == [] then []
    else Messages(items[..|items| - 1]) + match items[|items| - 1] case Ok(m) => [m] case Err(_) => []
  }

  lemma MessagesSnoc<M, E>(items: seq<Result<M, E>>, item: Result<M, E>)
    ensures Messages(items + [item]) == Messages(items) + match item case Ok(m) => [m] case Err(_) => []
  {
    assert (items + [item])[..|items|] == items;
  }

  lemma {:induction false} ItemsArePayloads<M, E>(policy: RetryPolicy, parse: Parser<M>, trace: seq<Ready<E>>)
    ensures Messages(Items(policy, parse, trace)) == Payloads(parse, trace)
  {
    if trace != [] {
      var before, r := trace[..|trace| - 1], trace[|trace| - 1];
      ItemsArePayloads(policy, parse, before);
      assert Items(policy, parse, before) + [] == Items(policy, parse, before);
      match r
      case Item(sse) =>
        if ParseData(parse, sse).Some? {
          MessagesSnoc(Items(policy, parse, before), Ok(ParseData(parse, sse).value));
        }
      case ReconnectFailed(e) => MessagesSnoc(Items(policy, parse, before), Err(e));
      case _ =>
    }
  }

  /** Over every run the messages yielded are the payloads that parse, in arrival order. */
  lemma YieldsPayloads<M, E>(policy: RetryPolicy, parse: Parser<M>, rs: seq<Ready<E>>)
    ensures Messages(Run(policy, parse, rs).items) == Payloads(parse, Run(policy, parse, rs).consumed)
  {
    RunMeansTrace(policy, parse, rs);
    ItemsArePayloads(policy, parse, Run(policy, parse, rs).consumed);
  }

  /** A fixed interval without limit never gives up: the stream is always connected,
      reconnecting or about to. */
  lemma {:induction false} UnlimitedNeverEnds<M, E>(policy: RetryPolicy, parse: Parser<M>, rs: seq<Ready<E>>)
    requires policy.FixedInterval? && policy.maxTimes == None
    ensures
      var state := Run(policy, parse, rs).state;
      state != Terminated && state != Panicked
  {
    if rs != [] {
      var n := |rs| - 1;
      UnlimitedNeverEnds(policy, parse, rs[..n]);
      var s := Run(policy, parse, rs[..n]);
      if s.state.Retrying? {
        FixedRetry(policy, s.state.retryTimes + 1);
      }
    }
  }

  // Outages

  /** An error is yielded once, as the last item, when the policy gives up. */
  lemma {:induction false} ErrorComesLast<M, E>(policy: RetryPolicy, parse: Parser<M>, rs: seq<Ready<E>>)
    ensures
      var m := Run(policy, parse, rs);
      && (m.state == Terminated ==>
            && m.items != [] && m.consumed != [] && m.consumed[|m.consumed| - 1].ReconnectFailed?
            && m.items[|m.items| - 1] == Err(m.consumed[|m.consumed| - 1].error))
      && forall k :: 0 <= k < |m.items| ==> (m.items[k].Err? <==> m.state == Terminated && k == |m.items| - 1)
  {
    if rs != [] {
      ErrorComesLast(policy, parse, rs[..|rs| - 1]);
    }
  }

  function Threshold(m: nat): nat {
    if m == 0 then 1 else m
  }

  /** The stream gives up after exactly max(1, m) reconnections failed in a row;
      a success in between starts the count again. */
  lemma {:induction false} GivesUpAtLimit<M, E>(policy: RetryPolicy, parse: Parser<M>, rs: seq<Ready<E>>, m: nat)
    requires policy.LimitedTo(m)
    ensures
      var s := Run(policy, parse, rs);
      && Failures(s.consumed) <= Threshold(m)
      && (s.state == Terminated <==> Failures(s.consumed) == Threshold(m))
      && s.state != Panicked
  {
    if rs != [] {
      var n := |rs| - 1;
      var s := Run(policy, parse, rs[..n]);
      GivesUpAtLimit(policy, parse, rs[..n], m);
      RunMeansTrace(policy, parse, rs[..n]);
      if s.Wants(rs[n]) {
        NextMeans(policy, parse, s.consumed, rs[n]);
        assert (s.consumed + [rs[n]])[..|s.consumed|] == s.consumed;
        if rs[n].ReconnectFailed? {
          LimitedRetry(policy, m, Failures(s.consumed + [rs[n]]));
        }
        assert Failures(s.consumed + [rs[n]]) <= Failures(s.consumed) + 1;
      }
    }
  }

  /** Nothing reaches the stream once it has given up. */
  lemma {:induction false} TerminatedForever<M, E>(
    policy: RetryPolicy, parse: Parser<M>, rs: seq<Ready<E>>, more: seq<Ready<E>>)
    requires Run(policy, parse, rs).state == Terminated
    ensures Run(policy, parse, rs + more) == Run(policy, parse, rs)
    decreases |more|
  {
    if more == [] {
      assert rs + more == rs;
    } else {
      var n := |more| - 1;
      TerminatedForever(policy, parse, rs, more[..n]);
      assert (rs + more)[..|rs| + n] == rs + more[..n];
    }
  }

  function Sum(s: seq<nat>): nat {
    if s == [] then 0 else Sum(s[..|s| - 1]) + s[|s| - 1]
  }

  /** The sleeps of the last outage so far. */
  function OutageSleeps<M, E>(s: Machine<M, E>): nat {
    if s.state == Terminated && Failures(s.consumed) > 0 then Failures(s.consumed) - 1 else Failures(s.consumed)
  }

  lemma SumOfLast(waits: seq<nat>, j: nat, w: nat)
    requires j <= |waits|
    ensures Sum((waits + [w])[|waits| - j..]) == Sum(waits[|waits| - j..]) + w
  {
    var tail := (waits + [w])[|waits| - j..];
    assert tail[..|tail| - 1] == waits[|waits| - j..];
  }

  /** The interval after the k-th failure in a row. */
  function Interval(base: nat, k: nat): nat {
    base * Pow2(k)
  }

  /** What the sleeps after the first j failures add up to, */
  function Total(base: nat, j: nat): nat {
    if j == 0 then 0 else Total(base, j - 1) + Interval(base, j)
  }

  /** in closed form. */
  lemma {:induction false} TotalIs(base: nat, j: nat)
    ensures Total(base, j) == base * (Pow2(j + 1) - 2)
  {
    if j > 0 {
      TotalIs(base, j - 1);
      assert Pow2(j + 1) == 2 * Pow2(j);
      Distribute(base, Pow2(j) - 2, Pow2(j));
    }
  }

  lemma Distribute(a: int, x: int, y: int)
    ensures a * (x + y) == a * x + a * y
  {
  }

  /** A failure the policy waits after adds the doubled interval to the outage. */
  lemma SleepAdds<M, E>(policy: RetryPolicy, parse: Parser<M>, s: Machine<M, E>, error: E, m: nat)
    requires policy.ExponentialBackoff? && policy.LimitedTo(m) && s == Meaning(policy, parse, s.consumed)
    requires s.state.Retrying? && LatestRetry(s.consumed) == None && Failures(s.consumed) + 1 < m
    requires |s.waits| >= Failures(s.consumed)
    ensures
      var s' := s.Fail(policy, error);
      && s'.waits == s.waits + [Interval(policy.baseDuration, Failures(s.consumed) + 1)]
      && Failures(s'.consumed) == Failures(s.consumed) + 1 && s'.state.WaitingNextRetry?
  {
    StateCountsFailures(policy, s.consumed);
    LimitedRetry(policy, m, Failures(s.consumed) + 1);
    assert (s.consumed + [ReconnectFailed(error)])[..|s.consumed|] == s.consumed;
  }

  ghost predicate TotalsHold<M, E>(base: nat, s: Machine<M, E>) {
    var j := OutageSleeps(s);
    j <= |s.waits| && Sum(s.waits[|s.waits| - j..]) == Total(base, j)
  }

  lemma TotalsGrow<M, E>(base: nat, s: Machine<M, E>, s': Machine<M, E>)
    requires TotalsHold(base, s) && OutageSleeps(s') == OutageSleeps(s) + 1
    requires s'.waits == s.waits + [Interval(base, OutageSleeps(s) + 1)]
    ensures TotalsHold(base, s')
  {
    var j := OutageSleeps(s);
    SumOfLast(s.waits, j, Interval(base, j + 1));
    assert |s'.waits| - (j + 1) == |s.waits| - j;
  }

  lemma TotalsStart<M, E>(base: nat, s: Machine<M, E>)
    requires OutageSleeps(s) == 0
    ensures TotalsHold(base, s)
  {
    assert s.waits[|s.waits|..] == [];
  }

  lemma {:induction false} TotalsAlways<M, E>(policy: RetryPolicy, parse: Parser<M>, rs: seq<Ready<E>>, m: nat)
    requires policy.ExponentialBackoff? && policy.LimitedTo(m)
    requires LatestRetry(Run(policy, parse, rs).consumed) == None
    ensures TotalsHold(policy.baseDuration, Run(policy, parse, rs))
  {
    if rs == [] {
      TotalsStart(policy.baseDuration, Run(policy, parse, rs));
    } else {
      var n := |rs| - 1;
      var s, s', r := Run(policy, parse, rs[..n]), Run(policy, parse, rs), rs[n];
      RunMeansTrace(policy, parse, rs[..n]);
      if s.Wants(r) {
        assert (s.consumed + [r])[..|s.consumed|] == s.consumed;
        TotalsAlways(policy, parse, rs[..n], m);
        TotalsStep(policy, parse, s, r, m);
      } else {
        TotalsAlways(policy, parse, rs[..n], m);
      }
    }
  }

  lemma TotalsStep<M, E>(policy: RetryPolicy, parse: Parser<M>, s: Machine<M, E>, r: Ready<E>, m: nat)
    requires policy.ExponentialBackoff? && policy.LimitedTo(m) && s == Meaning(policy, parse, s.consumed)
    requires s.Wants(r) && LatestRetry(s.consumed) == None
    requires TotalsHold(policy.baseDuration, s)
    ensures TotalsHold(policy.baseDuration, s.Advance(policy, parse, r))
  {
    match r
    case ReconnectFailed(error) => FailTotals(policy, parse, s, error, m);
    case Slept => SleptTotals(policy.baseDuration, s);
    case _ => OtherTotals(policy, parse, s, r);
  }

  lemma FailTotals<M, E>(policy: RetryPolicy, parse: Parser<M>, s: Machine<M, E>, error: E, m: nat)
    requires policy.ExponentialBackoff? && policy.LimitedTo(m) && s == Meaning(policy, parse, s.consumed)
    requires s.state.Retrying? && LatestRetry(s.consumed) == None
    requires TotalsHold(policy.baseDuration, s)
    ensures TotalsHold(policy.baseDuration, s.Fail(policy, error))
  {
    StateCountsFailures(policy, s.consumed);
    if Failures(s.consumed) + 1 < m {
      SleepAdds(policy, parse, s, error, m);
      TotalsGrow(policy.baseDuration, s, s.Fail(policy, error));
    } else {
      LastFailure(policy, s, error, m);
    }
  }

  lemma SleptTotals<M, E>(base: nat, s: Machine<M, E>)
    requires s.state.WaitingNextRetry? && TotalsHold(base, s)
    ensures TotalsHold(base, s.Reconnect(Slept, s.state.retryTimes))
  {
    assert (s.consumed + [Slept])[..|s.consumed|] == s.consumed;
    SameTotals(base, s, s.Reconnect(Slept, s.state.retryTimes));
  }

  lemma OtherTotals<M, E>(policy: RetryPolicy, parse: Parser<M>, s: Machine<M, E>, r: Ready<E>)
    requires policy.ExponentialBackoff? && s.Wants(r) && !r.ReconnectFailed? && !r.Slept?
    ensures TotalsHold(policy.baseDuration, s.Advance(policy, parse, r))
  {
    var s' := s.Advance(policy, parse, r);
    assert s'.consumed == s.consumed + [r];
    TotalsStart(policy.baseDuration, s');
  }

  lemma SameTotals<M, E>(base: nat, s: Machine<M, E>, s': Machine<M, E>)
    requires TotalsHold(base, s) && OutageSleeps(s') == OutageSleeps(s) && s'.waits == s.waits
    ensures TotalsHold(base, s')
  {
  }

  lemma LastFailure<M, E>(policy: RetryPolicy, s: Machine<M, E>, error: E, m: nat)
    requires policy.ExponentialBackoff? && policy.LimitedTo(m)
    requires s.state == Retrying(Failures(s.consumed)) && Failures(s.consumed) + 1 >= m
    requires TotalsHold(policy.baseDuration, s)
    ensures TotalsHold(policy.baseDuration, s.Fail(policy, error))
  {
    LimitedRetry(policy, m, Failures(s.consumed) + 1);
    assert (s.consumed + [ReconnectFailed(error)])[..|s.consumed|] == s.consumed;
    SameTotals(policy.baseDuration, s, s.Fail(policy, error));
  }

  /** Without a server interval, an outage given up on after m failures has slept
      m - 1 times, for base * (2^m - 2) in all. */
  lemma BackoffTotal<M, E>(policy: RetryPolicy, parse: Parser<M>, rs: seq<Ready<E>>, m: nat)
    requires policy.ExponentialBackoff? && policy.LimitedTo(m) && m >= 1
    requires Run(policy, parse, rs).state == Terminated && LatestRetry(Run(policy, parse, rs).consumed) == None
    ensures
      var waits := Run(policy, parse, rs).waits;
      m - 1 <= |waits| && Sum(waits[|waits| - (m - 1)..]) == policy.baseDuration * (Pow2(m) - 2)
  {
    GivesUpAtLimit(policy, parse, rs, m);
    TotalsAlways(policy, parse, rs, m);
    TotalIs(policy.baseDuration, m - 1);
  }

  // Overflow

  ghost predicate CanPanic<M(!new), E(!new)>(policy: RetryPolicy, parse: Parser<M>) {
    exists rs: seq<Ready<E>> :: Run<M, E>(policy, parse, rs).state == Panicked
  }

  function LongOutage<E>(error: E, failures: nat): seq<Ready<E>> {
    if failures == 0 then [StreamError] else LongOutage(error, failures - 1) + [ReconnectFailed(error), Slept]
  }

  ghost predicate OutageState(policy: RetryPolicy, state: State, n: nat)
    requires policy.ExponentialBackoff?
  {
    && (state == Retrying(n) || state == Panicked)
    && (n >= 1 && (n == 32 || !policy.Fits(n)) ==> state == Panicked)
  }

  lemma FailsAgain<M, E>(policy: RetryPolicy, parse: Parser<M>, s: Machine<M, E>, error: E, n: nat)
    requires policy.ExponentialBackoff? && 1 <= n <= 32 && (policy.maxTimes.Some? ==> n < policy.maxTimes.value)
    requires s.state == Retrying(n - 1) || (s.state == Panicked)
    ensures OutageState(policy, s.Next(policy, parse, ReconnectFailed(error)).Next(policy, parse, Slept).state, n)
  {
  }

  lemma {:induction false} LongOutageReaches<M, E>(policy: RetryPolicy, parse: Parser<M>, error: E, n: nat)
    requires policy.ExponentialBackoff? && n <= 32 && (policy.maxTimes.Some? ==> n == 0 || n < policy.maxTimes.value)
    ensures OutageState(policy, Run(policy, parse, LongOutage(error, n)).state, n)
  {
    if n == 0 {
      assert LongOutage(error, 0)[..0] == [];
    } else {
      LongOutageReaches(policy, parse, error, n - 1);
      FailsAgain(policy, parse, Run(policy, parse, LongOutage(error, n - 1)), error, n);
      RunTwoMore(policy, parse, LongOutage(error, n - 1), ReconnectFailed(error), Slept);
    }
  }

  lemma RunTwoMore<M, E>(policy: RetryPolicy, parse: Parser<M>, rs: seq<Ready<E>>, r0: Ready<E>, r1: Ready<E>)
    ensures Run(policy, parse, rs + [r0, r1]) == Run(policy, parse, rs).Next(policy, parse, r0).Next(policy, parse, r1)
  {
    RunSnoc(policy, parse, rs, r0);
    RunSnoc(policy, parse, rs + [r0], r1);
    assert rs + [r0, r1] == rs + [r0] + [r1];
  }

  /** Repeated failures overflow the backoff's arithmetic if and only if it has no
      limit, or one so large that some interval does not fit: over 32 always. */
  lemma OverflowsIff<M(!new), E(!new)>(policy: RetryPolicy, parse: Parser<M>, error: E)
    requires policy.ExponentialBackoff?
    ensures CanPanic<M, E>(policy, parse) <==> !policy.IntervalsFit()
  {
    if policy.IntervalsFit() {
      forall rs: seq<Ready<E>>
        ensures Run<M, E>(policy, parse, rs).state != Panicked
      {
        GivesUpAtLimit<M, E>(policy, parse, rs, policy.maxTimes.value);
      }
    } else {
      var n := if policy.maxTimes.None? || policy.maxTimes.value > 32 then 32 else policy.maxTimes.value - 1;
      LongOutageReaches<M, E>(policy, parse, error, n);
      assert Run<M, E>(policy, parse, LongOutage(error, n)).state == Panicked;
    }
  }

  // Polling

  datatype Poll<M, E> = Pending | Yields(item: Result<M, E>) | Finished | Unwinds

  /** One poll on a finite supply of ready results: it goes on until there is
      something to return or nothing more to take. */
  function Polled<M, E>(policy: RetryPolicy, parse: Parser<M>, s: Machine<M, E>, ready: seq<Ready<E>>):
    (Machine<M, E>, Poll<M, E>, seq<Ready<E>>)
    decreases |ready|
  {
    if s.state == Terminated then (s, Finished, ready)
    else if s.state == Panicked then (s, Unwinds, ready)
    else if ready == [] || !s.Wants(ready[0]) then (s, Pending, ready)
    else
      var s' := s.Advance(policy, parse, ready[0]);
      if |s'.items| > |s.items| then (s', Yields(s'.items[|s.items|]), ready[1..])
      else if ready[0].StreamEnd? then (s', Finished, ready[1..])
      else Polled(policy, parse, s', ready[1..])
  }

  /** A poll from after `rs` that took some of the supply and returned `poll`: it
      ends where the run ends, and returns the run's next item if it returns one. */
  ghost predicate PollsRun<M, E>(
    policy: RetryPolicy, parse: Parser<M>, rs: seq<Ready<E>>, ready: seq<Ready<E>>,
    s': Machine<M, E>, poll: Poll<M, E>, rest: seq<Ready<E>>)
  {
    && |rest| <= |ready| && rest == ready[|ready| - |rest|..]
    && s' == Run(policy, parse, rs + ready[..|ready| - |rest|])
    && s'.items == Run(policy, parse, rs).items + (if poll.Yields? then [poll.item] else [])
    && (poll == Pending ==> rest == [] || !s'.Wants(rest[0]))
    && (poll == Unwinds <==> s'.state == Panicked)
    && (poll == Finished <==>
          || Run(policy, parse, rs).state == Terminated
          || (|rest| < |ready| && ready[|ready| - |rest| - 1].StreamEnd?))
    && (forall k :: 0 <= k < |ready| - |rest| && ready[k].StreamEnd? ==> k == |ready| - |rest| - 1)
  }

  lemma PollStops<M, E>(
    policy: RetryPolicy, parse: Parser<M>, rs: seq<Ready<E>>, ready: seq<Ready<E>>, poll: Poll<M, E>)
    requires !poll.Yields? && (poll == Pending ==> ready == [] || !Run(policy, parse, rs).Wants(ready[0]))
    requires poll == Finished <==> Run(policy, parse, rs).state == Terminated
    requires poll == Unwinds <==> Run(policy, parse, rs).state == Panicked
    ensures PollsRun(policy, parse, rs, ready, Run(policy, parse, rs), poll, ready)
  {
    assert rs + ready[..0] == rs;
  }

  lemma PollReturns<M, E>(
    policy: RetryPolicy, parse: Parser<M>, rs: seq<Ready<E>>, ready: seq<Ready<E>>, poll: Poll<M, E>)
    requires ready != [] && poll != Pending && poll != Unwinds
    requires Run(policy, parse, rs).state != Terminated && Run(policy, parse, rs + [ready[0]]).state != Panicked
    requires poll == Finished <==> ready[0].StreamEnd?
    requires Run(policy, parse, rs + [ready[0]]).items
      == Run(policy, parse, rs).items + if poll.Yields? then [poll.item] else []
    ensures PollsRun(policy, parse, rs, ready, Run(policy, parse, rs + [ready[0]]), poll, ready[1..])
  {
    assert ready[..1] == [ready[0]];
  }

  lemma PollGoesOn<M, E>(
    policy: RetryPolicy, parse: Parser<M>, rs: seq<Ready<E>>, ready: seq<Ready<E>>,
    s': Machine<M, E>, poll: Poll<M, E>, rest: seq<Ready<E>>)
    requires ready != [] && PollsRun(policy, parse, rs + [ready[0]], ready[1..], s', poll, rest)
    requires Run(policy, parse, rs + [ready[0]]).items == Run(policy, parse, rs).items
    requires Run(policy, parse, rs).state != Terminated && Run(policy, parse, rs + [ready[0]]).state != Terminated
    requires !ready[0].StreamEnd?
    ensures PollsRun(policy, parse, rs, ready, s', poll, rest)
  {
    TakeOneMore(rs, ready, |ready| - |rest|);
  }

  /** Polls put together give the run, item by item; once the stream has given up
      every poll finishes. */
  lemma {:induction false} PollIsRun<M, E>(
    policy: RetryPolicy, parse: Parser<M>, rs: seq<Ready<E>>, ready: seq<Ready<E>>)
    ensures
      var s := Run(policy, parse, rs);
      var polled := Polled(policy, parse, s, ready);
      && PollsRun(policy, parse, rs, ready, polled.0, polled.1, polled.2)
      && (s.state == Terminated ==> polled.1 == Finished)
    decreases |ready|
  {
    var s := Run(policy, parse, rs);
    var polled := Polled(policy, parse, s, ready);
    if s.state == Terminated || s.state == Panicked || ready == [] || !s.Wants(ready[0]) {
      PollStops(policy, parse, rs, ready, polled.1);
    } else {
      RunSnoc(policy, parse, rs, ready[0]);
      AdvanceYields(policy, parse, s, ready[0]);
      var s' := s.Advance(policy, parse, ready[0]);
      if |s'.items| == |s.items| && !ready[0].StreamEnd? {
        PollIsRun(policy, parse, rs + [ready[0]], ready[1..]);
        PollGoesOn(policy, parse, rs, ready, polled.0, polled.1, polled.2);
      } else {
        PollReturns(policy, parse, rs, ready, polled.1);
      }
    }
  }

  lemma AdvanceYields<M, E>(policy: RetryPolicy, parse: Parser<M>, s: Machine<M, E>, r: Ready<E>)
    requires s.Wants(r)
    ensures
      var s' := s.Advance(policy, parse, r);
      && (s'.items == s.items || (|s'.items| == |s.items| + 1 && s'.items == s.items + [s'.items[|s.items|]]))
      && (s'.items != s.items || r.StreamEnd? ==> s'.state != Panicked && (r.StreamEnd? ==> s'.items == s.items))
      && (s'.items == s.items ==> s'.state != Terminated)
  {
  }

  lemma TakeOneMore<T>(rs: seq<T>, ready: seq<T>, n: nat)
    requires 1 <= n <= |ready|
    ensures rs + ready[..n] == (rs + [ready[0]]) + ready[1..][..n - 1]
    ensures ready[n..] == ready[1..][n - 1..]
  {
  }

  class SseAutoReconnectStream<M, E> {
    const retryPolicy: RetryPolicy
    const parse: Parser<M>
    var state: State
    var lastEventId: Option<string>
    var serverRetryInterval: Option<nat>
    ghost var log: Machine<M, E>

    /** The history is kept in `log`, whose other fields are not used. */
    ghost function View(): Machine<M, E>
      reads this
    {
      log.(state := state, lastEventId := lastEventId, serverRetryInterval := serverRetryInterval)
    }

    constructor (retryPolicy: RetryPolicy, parse: Parser<M>)
      ensures this.retryPolicy == retryPolicy && this.parse == parse && View() == Fresh()
    {
      this.retryPolicy, this.parse := retryPolicy, parse;
      state, lastEventId, serverRetryInterval := Connected, None, None;
      log := Fresh();
    }

    /** `poll_next`: each call of itself takes one more result from the supply. */
    method PollNext(ready: seq<Ready<E>>) returns (poll: Poll<M, E>, rest: seq<Ready<E>>)
      modifies this
      ensures (View(), poll, rest) == Polled(retryPolicy, parse, old(View()), ready)
      decreases |ready|
    {
      match state {
        case Terminated => return Finished, ready;
        case Panicked => return Unwinds, ready;
        case _ =>
      }
      if ready == [] {
        return Pending, ready;
      }
      match state
      case Connected =>
        match ready[0] {
          case Item(sse) =>
            if sse.retry.Some? {
              serverRetryInterval := Some(sse.retry.value * NANOS_PER_MILLI);
            }
            if sse.id.Some? {
              lastEventId := sse.id;
            }
            log := log.(consumed := log.consumed + [ready[0]]);
            if sse.data.Some? {
              var parsed := parse(sse.data.value);
              if parsed.Some? {
                log := log.(items := log.items + [Ok(parsed.value)]);
                return Yields(Ok(parsed.value)), ready[1..];
              }
            }
          case StreamError => RetryConnection(ready[0], 0);
          case StreamEnd =>
            log := log.(consumed := log.consumed + [ready[0]]);
            return Finished, ready[1..];
          case _ => return Pending, ready;
        }
        poll, rest := PollNext(ready[1..]);
      case Retrying(retryTimes) =>
        match ready[0] {
          case Reconnected =>
            log := log.(consumed := log.consumed + [ready[0]]);
            state := Connected;
          case ReconnectFailed(e) =>
            log := log.(consumed := log.consumed + [ready[0]]);
            match retryPolicy.Retry(retryTimes + 1) {
              case Delay(interval) =>
                var sleep := interval;
                if serverRetryInterval.Some? && serverRetryInterval.value > interval {
                  sleep := serverRetryInterval.value;
                }
                log := log.(waits := log.waits + [sleep]);
                state := WaitingNextRetry(sleep, retryTimes + 1);
              case GiveUp =>
                state := Terminated;
                log := log.(items := log.items + [Err(e)]);
                return Yields(Err(e)), ready[1..];
              case Panic => state := Panicked;
            }
          case _ => return Pending, ready;
        }
        poll, rest := PollNext(ready[1..]);
      case WaitingNextRetry(_, retryTimes) =>
        if !ready[0].Slept? {
          return Pending, ready;
        }
        RetryConnection(ready[0], retryTimes);
        poll, rest := PollNext(ready[1..]);
    }

    method RetryConnection(r: Ready<E>, retryTimes: nat)
      modifies this`state, this`log
      ensures View() == old(View()).Reconnect(r, retryTimes)
    {
      log := log.(consumed := log.consumed + [r], attempts := log.attempts + [lastEventId]);
      state := Retrying(retryTimes);
    }
  }
}
