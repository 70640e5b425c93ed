/** The initialize handshake (crates/rmcp/src/service/server.rs and
    crates/rmcp/src/service/client.rs): both sides as machines that react to one
    received message at a time, and their product over two FIFO channels. */
module Versions {
  import opened JsonRpc

  datatype Ordering = Less | Equal | Greater

  /** A protocol version is any string; its derived order is the one of strings. */
  type Version = string

  function Compare(a: Version, b: Version): Ordering {
    if a == [] then if b == [] then Equal else Less
    else if b == [] then Greater
    else if a[0] < b[0] then Less
    else if a[0] > b[0] then Greater
    else Compare(a[1..], b[1..])
  }

  /** The derived `partial_cmp` never answers that two versions cannot be compared. */
  function PartialCompare(a: Version, b: Version): Option<Ordering> {
    Some(Compare(a, b))
  }

  predicate AtMost(a: Version, b: Version) {
    Compare(a, b) != Greater
  }

  function Negotiate(client: Version, server: Version): Version {
    if Compare(client, server) == Less then client else server
  }

  lemma {:induction false} CompareFlips(a: Version, b: Version)
    ensures Compare(a, b) == Less <==> Compare(b, a) == Greater
    ensures Compare(a, b) == Equal <==> a == b
  {
    if a != [] && b != [] && a[0] == b[0] {
      CompareFlips(a[1..], b[1..]);
      assert a == [a[0]] + a[1..] && b == [b[0]] + b[1..];
    }
  }

  lemma {:induction false} AtMostTransitive(a: Version, b: Version, c: Version)
    requires AtMost(a, b) && AtMost(b, c)
    ensures AtMost(a, c)
  {
    if a != [] && b != [] && c != [] && a[0] == b[0] == c[0] {
      AtMostTransitive(a[1..], b[1..], c[1..]);
    }
  }

  /** The first is before the second in the order of strings: at the first difference
      it has the smaller character, or it is a proper prefix. */
  ghost predicate Older(a: Version, b: Version) {
    || (exists k :: 0 <= k < |a| && k < |b| && a[..k] == b[..k] && a[k] < b[k])
    || (|a| < |b| && a == b[..|a|])
  }

  lemma {:induction false} LessIsOlder(a: Version, b: Version)
    requires Compare(a, b) == Less
    ensures Older(a, b)
  {
    if a != [] && b != [] && a[0] == b[0] {
      LessIsOlder(a[1..], b[1..]);
      OlderGrows(a, b);
    } else if a != [] {
      assert a[..0] == b[..0];
    }
  }

  lemma OlderGrows(a: Version, b: Version)
    requires a != [] && b != [] && a[0] == b[0] && Older(a[1..], b[1..])
    ensures Older(a, b)
  {
    var x, y := a[1..], b[1..];
    assert a == [a[0]] + x && b == [b[0]] + y;
    if |x| < |y| && x == y[..|x|] {
      assert b[..|a|] == [b[0]] + y[..|x|];
    } else {
      var k :| 0 <= k < |x| && k < |y| && x[..k] == y[..k] && x[k] < y[k];
      assert a[..k + 1] == [a[0]] + x[..k] && b[..k + 1] == [b[0]] + y[..k];
      assert a[k + 1] < b[k + 1];
    }
  }

  lemma {:induction false} OlderIsLess(a: Version, b: Version)
    requires Older(a, b)
    ensures Compare(a, b) == Less
  {
    if |a| < |b| && a == b[..|a|] {
      PrefixIsLess(a, b);
    } else {
      var k :| 0 <= k < |a| && k < |b| && a[..k] == b[..k] && a[k] < b[k];
      DifferenceIsLess(a, b, k);
    }
  }

  lemma {:induction false} DifferenceIsLess(a: Version, b: Version, k: nat)
    requires k < |a| && k < |b| && a[..k] == b[..k] && a[k] < b[k]
    ensures Compare(a, b) == Less
  {
    if k > 0 {
      assert a[0] == a[..k][0] == b[0];
      assert a[1..][..k - 1] == a[..k][1..] && b[1..][..k - 1] == b[..k][1..];
      DifferenceIsLess(a[1..], b[1..], k - 1);
    }
  }

  lemma {:induction false} PrefixIsLess(a: Version, b: Version)
    requires |a| < |b| && a == b[..|a|]
    ensures Compare(a, b) == Less
  {
    if a != [] {
      assert a[0] == b[..|a|][0];
      assert a[1..] == b[..|a|][1..] == b[1..][..|a| - 1];
      PrefixIsLess(a[1..], b[1..]);
    }
  }

  /** The comparison is the lexicographic one. */
  lemma CompareIsLexicographic(a: Version, b: Version)
    ensures Compare(a, b) == Less <==> Older(a, b)
    ensures Compare(a, b) == Greater <==> Older(b, a)
    ensures Compare(a, b) == Equal <==> a == b
  {
    CompareFlips(a, b);
    CompareFlips(b, a);
    if Older(a, b) {
      OlderIsLess(a, b);
    }
    if Compare(a, b) == Less {
      LessIsOlder(a, b);
    }
    if Older(b, a) {
      OlderIsLess(b, a);
    }
    if Compare(b, a) == Less {
      LessIsOlder(b, a);
    }
  }

  /** The version agreed on is the older of the two offers, whichever side made it. */
  lemma NegotiateIsMinimum(client: Version, server: Version)
    ensures
      var v := Negotiate(client, server);
      && (v == client || v == server) && !Older(client, v) && !Older(server, v)
      && (Older(client, server) ==> v == client) && (Older(server, client) ==> v == server)
      && AtMost(v, client) && AtMost(v, server) && v == Negotiate(server, client)
  {
    CompareIsLexicographic(client, server);
    CompareIsLexicographic(client, client);
    CompareIsLexicographic(server, server);
    CompareIsLexicographic(server, client);
  }

  /** Of the released versions, 2024-11-05 is agreed on whenever one side offers it. */
  lemma ReleasedVersions()
    ensures Negotiate("2024-11-05", "2025-03-26") == "2024-11-05" == Negotiate("2025-03-26", "2024-11-05")
  {
    var earlier, later := "2024-11-05", "2025-03-26";
    assert earlier[..3] == later[..3] && earlier[3] < later[3];
    assert Older(earlier, later);
    NegotiateIsMinimum(earlier, later);
  }
}

module Handshake {
  import opened JsonRpc
  import opened Versions

  /** `ClientRest` and `ServerRest` are every other message: responses, errors and batches
      from the client, requests, notifications and batches from the server. */
  datatype ClientMessage =
    | InitializeRequest(id: RequestId, version: Version)
    | ClientRequest(id: RequestId, request: string)
    | InitializedNotification
    | ClientNotification(notification: string)
    | ClientRest(text: string)
  {
    predicate IsRequest() {
      InitializeRequest? || ClientRequest?
    }
  }

  datatype InitializeResult = InitializeResult(protocolVersion: Version, serverInfo: string)

  datatype ServerMessage =
    | InitializeResponse(id: RequestId, initialized: InitializeResult)
    | ServerResponse(id: RequestId, result: string)
    | ServerError(id: RequestId, error: string)
    | ServerRest(text: string)

  /** What the server's handler makes of an initialize request. */
  datatype Handled = Initialized(result: InitializeResult) | OtherResult(other: string) | Refused(error: string)

  type Handler = Version -> Handled

  datatype ServerFailure =
    | ExpectedInitializeRequest(got: ClientMessage)
    | ExpectedInitializedNotification(got: ClientMessage)
    | ServerConnectionClosed
    | UnexpectedInitializeResponse(result: string)
    | InitializeFailed(error: string)
    | UnsupportedProtocolVersion(version: Version)
    | ServerTransportError

  datatype ClientFailure =
    | ExpectedInitResponse(got: ServerMessage)
    | ExpectedInitResult(result: string)
    | ConflictInitResponseId(expected: RequestId, actual: RequestId)
    | ClientConnectionClosed
    | ClientTransportError

  /** `Serving`: the side has entered the service loop, with what it knows of its peer. */
  datatype ServerState =
    | AwaitRequest
    | AwaitInitialized(peer: Version)
    | Serving(peer: Version)
    | ServerFailed(failure: ServerFailure)
  {
    predicate Waiting() {
      AwaitRequest? || AwaitInitialized?
    }
  }

  datatype ClientState =
    | Idle
    | AwaitResult(id: RequestId)
    | Ready(server: InitializeResult)
    | ClientFailed(reason: ClientFailure)

  /** What the server does with the request's id and version once its handler answered. */
  function Answer(id: RequestId, version: Version, handled: Handled, sendFails: bool): (ServerState, seq<ServerMessage>) {
    match handled
    case OtherResult(result) => (ServerFailed(UnexpectedInitializeResponse(result)), [])
    case Refused(error) =>
      if sendFails then (ServerFailed(ServerTransportError), [])
      else (ServerFailed(InitializeFailed(error)), [ServerError(id, error)])
    case Initialized(response) =>
      match PartialCompare(version, response.protocolVersion)
      case None => (ServerFailed(UnsupportedProtocolVersion(version)), [])
      case Some(ordering) =>
        var agreed := if ordering == Less then version else response.protocolVersion;
        if sendFails then (ServerFailed(ServerTransportError), [])
        else (AwaitInitialized(version), [InitializeResponse(id, response.(protocolVersion := agreed))])
  }

  /** One receive of the server, with all it does before the next; `None` is a closed connection. */
  function ServerReacts(handler: Handler, s: ServerState, got: Option<ClientMessage>, sendFails: bool):
    (ServerState, seq<ServerMessage>)
    requires s.Waiting()
  {
    if got.None? then (ServerFailed(ServerConnectionClosed), [])
    else match s
      case AwaitRequest =>
        (match got.value
         case InitializeRequest(id, version) => Answer(id, version, handler(version), sendFails)
         case m => (ServerFailed(ExpectedInitializeRequest(m)), []))
      case AwaitInitialized(version) =>
        if got.value == InitializedNotification then (Serving(version), [])
        else (ServerFailed(ExpectedInitializedNotification(got.value)), [])
  }

  function ClientStarts(offer: Version, id: RequestId, sendFails: bool): (ClientState, seq<ClientMessage>) {
    if sendFails then (ClientFailed(ClientTransportError), []) else (AwaitResult(id), [InitializeRequest(id, offer)])
  }

  function ClientReacts(id: RequestId, got: Option<ServerMessage>, sendFails: bool): (ClientState, seq<ClientMessage>) {
    match got
    case None => (ClientFailed(ClientConnectionClosed), [])
    case Some(InitializeResponse(rid, result)) =>
      if rid != id then (ClientFailed(ConflictInitResponseId(id, rid)), [])
      else if sendFails then (ClientFailed(ClientTransportError), [])
      else (Ready(result), [InitializedNotification])
    case Some(ServerResponse(rid, result)) =>
      if rid != id then (ClientFailed(ConflictInitResponseId(id, rid)), [])
      else (ClientFailed(ExpectedInitResult(result)), [])
    case Some(m) => (ClientFailed(ExpectedInitResponse(m)), [])
  }

  /** Both sides, the channels between them, and what each side got and sent in its handshake. */
  datatype World = World(
    client: ClientState,
    server: ServerState,
    toServer: seq<ClientMessage>,
    toClient: seq<ServerMessage>,
    clientGot: seq<Option<ServerMessage>>,
    clientSent: seq<ClientMessage>,
    serverGot: seq<Option<ClientMessage>>,
    serverSent: seq<ServerMessage>)

  /** A side that waits on an empty channel may find the connection closed. Once a
      side serves it sends whatever it likes. `InjectToServer` and `InjectToClient`
      are messages that the other side of this handshake did not send. */
  datatype Step =
    | Start(sendFails: bool)
    | ServerReceives(sendFails: bool)
    | ServerFindsClosed
    | ClientReceives(sendFails: bool)
    | ClientFindsClosed
    | ClientSends(toServer: ClientMessage)
    | ServerSends(toClient: ServerMessage)
    | InjectToServer(toServer: ClientMessage)
    | InjectToClient(toClient: ServerMessage)
  {
    predicate Honest() {
      !InjectToServer? && !InjectToClient?
    }

    predicate Smooth() {
      Honest() && !ServerFindsClosed? && !ClientFindsClosed? &&
      (Start? || ServerReceives? || ClientReceives? ==> !sendFails)
    }
  }

  predicate Enabled(w: World, step: Step) {
    match step
    case Start(_) => w.client.Idle?
    case ServerReceives(_) => w.server.Waiting() && w.toServer != []
    case ServerFindsClosed => w.server.Waiting() && w.toServer == []
    case ClientReceives(_) => w.client.AwaitResult? && w.toClient != []
    case ClientFindsClosed => w.client.AwaitResult? && w.toClient == []
    case ClientSends(_) => w.client.Ready?
    case ServerSends(_) => w.server.Serving?
    case InjectToServer(_) => true
    case InjectToClient(_) => true
  }

  /** The first id of a fresh provider. */
  const INIT_ID: RequestId := Number(0)

  datatype Offers = Offers(client: Version, handler: Handler)

  function ServerTakes(o: Offers, w: World, got: Option<ClientMessage>, sendFails: bool): World
    requires w.server.Waiting()
  {
    var (s, out) := ServerReacts(o.handler, w.server, got, sendFails);
    w.(server := s, toClient := w.toClient + out, serverSent := w.serverSent + out, serverGot := w.serverGot + [got])
  }

  function ClientTakes(w: World, got: Option<ServerMessage>, sendFails: bool): World
    requires w.client.AwaitResult?
  {
    var (c, out) := ClientReacts(w.client.id, got, sendFails);
    w.(client := c, toServer := w.toServer + out, clientSent := w.clientSent + out, clientGot := w.clientGot + [got])
  }

  function Take(o: Offers, w: World, step: Step): World
    requires Enabled(w, step)
  {
    match step
    case Start(fails) =>
      var (c, out) := ClientStarts(o.client, INIT_ID, fails);
      w.(client := c, toServer := w.toServer + out, clientSent := w.clientSent + out)
    case ServerReceives(fails) => ServerTakes(o, w.(toServer := w.toServer[1..]), Some(w.toServer[0]), fails)
    case ServerFindsClosed => ServerTakes(o, w, None, false)
    case ClientReceives(fails) => ClientTakes(w.(toClient := w.toClient[1..]), Some(w.toClient[0]), fails)
    case ClientFindsClosed => ClientTakes(w, None, false)
    case ClientSends(m) => w.(toServer := w.toServer + [m])
    case ServerSends(m) => w.(toClient := w.toClient + [m])
    case InjectToServer(m) => w.(toServer := w.toServer + [m])
    case InjectToClient(m) => w.(toClient := w.toClient + [m])
  }

  function Next(o: Offers, w: World, step: Step): World {
    if Enabled(w, step) then Take(o, w, step) else w
  }

  function Exec(o: Offers, steps: seq<Step>): World {
    if steps == [] then World(Idle, AwaitRequest, [], [], [], [], [], [])
    else Next(o, Exec(o, steps[..|steps| - 1]), steps[|steps| - 1])
  }

  // Each side, whatever the other one sends

  /** What the server got and sent if it has accepted the initialize request. */
  ghost predicate Accepted(o: Offers, w: World, version: Version) {
    && w.serverGot != [] && w.serverGot[0].Some? && w.serverGot[0].value.InitializeRequest?
    && w.serverGot[0].value.version == version
    && o.handler(version).Initialized?
    && var result := o.handler(version).result;
       w.serverSent == [InitializeResponse(w.serverGot[0].value.id,
                          result.(protocolVersion := Negotiate(version, result.protocolVersion)))]
  }

  /** The first message the server got is an initialize request. */
  predicate Requested(w: World) {
    w.serverGot != [] && w.serverGot[0].Some? && w.serverGot[0].value.InitializeRequest?
  }

  /** What the handler made of it. */
  function Verdict(o: Offers, w: World): Handled
    requires Requested(w)
  {
    o.handler(w.serverGot[0].value.version)
  }

  ghost predicate HasAccepted(o: Offers, w: World) {
    Requested(w) && Accepted(o, w, w.serverGot[0].value.version)
  }

  /** What the server got and sent when it failed. A refusal by the handler reaches the client. */
  ghost predicate ServerFailedFor(o: Offers, w: World, failure: ServerFailure) {
    match failure
    case ExpectedInitializeRequest(m) => w.serverGot == [Some(m)] && !m.InitializeRequest? && w.serverSent == []
    case ServerConnectionClosed =>
      || (w.serverGot == [None] && w.serverSent == [])
      || (|w.serverGot| == 2 && w.serverGot[1] == None && HasAccepted(o, w))
    case UnexpectedInitializeResponse(result) =>
      |w.serverGot| == 1 && Requested(w) && Verdict(o, w) == OtherResult(result) && w.serverSent == []
    case InitializeFailed(error) =>
      && |w.serverGot| == 1 && Requested(w) && Verdict(o, w) == Refused(error)
      && w.serverSent == [ServerError(w.serverGot[0].value.id, error)]
    case ServerTransportError =>
      |w.serverGot| == 1 && Requested(w) && !Verdict(o, w).OtherResult? && w.serverSent == []
    case ExpectedInitializedNotification(m) =>
      |w.serverGot| == 2 && w.serverGot[1] == Some(m) && m != InitializedNotification && HasAccepted(o, w)
    case UnsupportedProtocolVersion(_) => false
  }

  ghost predicate ClientFailedFor(o: Offers, w: World, reason: ClientFailure) {
    var asked := [InitializeRequest(INIT_ID, o.client)];
    match reason
    case ExpectedInitResponse(m) =>
      w.clientGot == [Some(m)] && !m.InitializeResponse? && !m.ServerResponse? && w.clientSent == asked
    case ExpectedInitResult(result) => w.clientGot == [Some(ServerResponse(INIT_ID, result))] && w.clientSent == asked
    case ConflictInitResponseId(expected, actual) =>
      && expected == INIT_ID && actual != INIT_ID && w.clientSent == asked && |w.clientGot| == 1 && w.clientGot[0].Some?
      && var m := w.clientGot[0].value; (m.InitializeResponse? || m.ServerResponse?) && m.id == actual
    case ClientConnectionClosed => w.clientGot == [None] && w.clientSent == asked
    case ClientTransportError =>
      || (w.clientGot == [] && w.clientSent == [])
      || (w.clientSent == asked && |w.clientGot| == 1 && w.clientGot[0].Some?
          && w.clientGot[0].value.InitializeResponse? && w.clientGot[0].value.id == INIT_ID)
  }

  /** The server serves exactly after an initialize request that its handler
      accepted, its response under the same id and with the smaller version, and
      the initialized notification. */
  ghost predicate ServerExact(o: Offers, w: World) {
    && (w.server.AwaitRequest? <==> w.serverGot == [])
    && (w.server.AwaitRequest? ==> w.serverSent == [])
    && (w.server.AwaitInitialized? <==> |w.serverGot| == 1 && exists v :: Accepted(o, w, v))
    && (w.server.AwaitInitialized? ==> Accepted(o, w, w.server.peer))
    && (w.server.Serving? <==>
         && |w.serverGot| == 2 && w.serverGot[1] == Some(InitializedNotification)
         && exists v :: Accepted(o, w, v))
    && (w.server.Serving? ==> Accepted(o, w, w.server.peer))
    && (w.server.ServerFailed? ==> ServerFailedFor(o, w, w.server.failure))
  }

  /** The client serves exactly after its initialize request, an initialize result
      under the same id, and its initialized notification. */
  ghost predicate ClientExact(o: Offers, w: World) {
    && (w.client.Idle? ==> w.clientGot == [] && w.clientSent == [])
    && (w.client.AwaitResult? ==>
          && w.client.id == INIT_ID && w.clientGot == []
          && w.clientSent == [InitializeRequest(INIT_ID, o.client)])
    && (w.client.Ready? <==> w.clientSent == [InitializeRequest(INIT_ID, o.client), InitializedNotification])
    && (w.client.Ready? ==> w.clientGot == [Some(InitializeResponse(INIT_ID, w.client.server))])
    && (w.client.ClientFailed? ==> ClientFailedFor(o, w, w.client.reason))
  }

  lemma AnswerExact(o: Offers, w: World, got: Option<ClientMessage>, sendFails: bool)
    requires ServerExact(o, w) && w.server.Waiting()
    ensures ServerExact(o, ServerTakes(o, w, got, sendFails))
  {
    var w' := ServerTakes(o, w, got, sendFails);
    assert w'.serverGot == w.serverGot + [got];
    if w.server.AwaitInitialized? {
      assert Accepted(o, w', w.server.peer);
      assert w'.serverSent == w.serverSent;
    } else if w'.server.AwaitInitialized? {
      assert Accepted(o, w', w'.server.peer);
    }
  }

  lemma ClientTakesExact(o: Offers, w: World, got: Option<ServerMessage>, sendFails: bool)
    requires ClientExact(o, w) && w.client.AwaitResult?
    ensures ClientExact(o, ClientTakes(w, got, sendFails))
  {
  }

  lemma SameServer(o: Offers, w: World, w': World)
    requires ServerExact(o, w) && w'.server == w.server && w'.serverGot == w.serverGot && w'.serverSent == w.serverSent
    ensures ServerExact(o, w')
  {
    assert forall v :: Accepted(o, w', v) <==> Accepted(o, w, v);
  }

  lemma NextExact(o: Offers, w: World, step: Step)
    requires ServerExact(o, w) && ClientExact(o, w)
    ensures ServerExact(o, Next(o, w, step)) && ClientExact(o, Next(o, w, step))
  {
    if Enabled(w, step) {
      match step
      case ServerReceives(fails) =>
        SameServer(o, w, w.(toServer := w.toServer[1..]));
        AnswerExact(o, w.(toServer := w.toServer[1..]), Some(w.toServer[0]), fails);
      case ServerFindsClosed => AnswerExact(o, w, None, false);
      case ClientReceives(fails) =>
        ClientTakesExact(o, w.(toClient := w.toClient[1..]), Some(w.toClient[0]), fails);
        SameServer(o, w, Next(o, w, step));
      case ClientFindsClosed =>
        ClientTakesExact(o, w, None, false);
        SameServer(o, w, Next(o, w, step));
      case _ => SameServer(o, w, Next(o, w, step));
    }
  }

  /** Over every run, whatever is injected. */
  lemma {:induction false} RunExact(o: Offers, steps: seq<Step>)
    ensures ServerExact(o, Exec(o, steps)) && ClientExact(o, Exec(o, steps))
  {
    if steps != [] {
      RunExact(o, steps[..|steps| - 1]);
      NextExact(o, Exec(o, steps[..|steps| - 1]), steps[|steps| - 1]);
    }
  }

  // The two together

  /** What the server answers an accepted request of this client with. */
  function Agreed(o: Offers): InitializeResult
    requires o.handler(o.client).Initialized?
  {
    var result := o.handler(o.client).result;
    result.(protocolVersion := Negotiate(o.client, result.protocolVersion))
  }

  predicate Accepts(o: Offers) {
    o.handler(o.client).Initialized?
  }

  /** The request is on its way exactly until the server takes it. */
  predicate RequestTravels(o: Offers, w: World) {
    w.server.AwaitRequest? ==>
      w.toClient == [] && !w.client.Ready? &&
      w.toServer == w.clientSent && (w.clientSent == [] || w.clientSent == [InitializeRequest(INIT_ID, o.client)])
  }

  /** The result is on its way exactly until the client takes it, and then so is the notification. */
  predicate ResultTravels(o: Offers, w: World) {
    w.server.AwaitInitialized? ==>
      && Accepts(o) && w.server.peer == o.client
      && match w.client
         case Idle => false
         case AwaitResult(_) => w.toServer == [] && w.toClient == [InitializeResponse(INIT_ID, Agreed(o))]
         case Ready(_) => w.toServer != [] && w.toServer[0] == InitializedNotification && w.toClient == []
         case ClientFailed(_) => w.toServer == []
  }

  predicate BothServe(o: Offers, w: World) {
    && (w.server.Serving? ==> w.client.Ready? && Accepts(o) && w.server.peer == o.client)
    && (w.client.Ready? ==> Accepts(o) && w.client.server == Agreed(o))
  }

  /** A side fails only because the connection does or the handler refuses: never
      because of a message of the other. */
  predicate HonestFailures(o: Offers, w: World) {
    && (w.server.ServerFailed? ==>
          || w.server.failure.ServerConnectionClosed? || w.server.failure.ServerTransportError?
          || w.server.failure.UnexpectedInitializeResponse? || w.server.failure.InitializeFailed?)
    && (w.client.ClientFailed? ==>
          || w.client.reason.ClientConnectionClosed? || w.client.reason.ClientTransportError?
          || (w.client.reason.ExpectedInitResponse? && o.handler(o.client).Refused?
              && w.client.reason.got == ServerError(INIT_ID, o.handler(o.client).error)))
  }

  /** What a client can still find when the server is past its answer. */
  predicate AnswerTravels(o: Offers, w: World) {
    w.client.AwaitResult? ==>
      && w.client.id == INIT_ID && !w.server.Serving?
      && (w.toClient == []
          || (Accepts(o) && w.toClient == [InitializeResponse(INIT_ID, Agreed(o))])
          || (o.handler(o.client).Refused? && w.toClient == [ServerError(INIT_ID, o.handler(o.client).error)]))
  }

  predicate HonestInv(o: Offers, w: World) {
    && RequestTravels(o, w) && ResultTravels(o, w) && BothServe(o, w) && HonestFailures(o, w) && AnswerTravels(o, w)
    && (w.client.Idle? ==> w.toClient == [] && w.clientSent == [] && (w.server.AwaitRequest? || w.server.ServerFailed?))
  }

  lemma ServerTakesHonest(o: Offers, w: World, fails: bool)
    requires HonestInv(o, w) && Enabled(w, ServerReceives(fails))
    ensures HonestInv(o, Take(o, w, ServerReceives(fails)))
  {
    assert [InitializeRequest(INIT_ID, o.client)][1..] == [];
    if w.server.AwaitRequest? {
      assert w.toServer == [InitializeRequest(INIT_ID, o.client)];
    }
  }

  lemma ClientTakesHonest(o: Offers, w: World, fails: bool)
    requires HonestInv(o, w) && Enabled(w, ClientReceives(fails))
    ensures HonestInv(o, Take(o, w, ClientReceives(fails)))
  {
    assert |w.toClient| == 1;
  }

  lemma NextHonest(o: Offers, w: World, step: Step)
    requires HonestInv(o, w) && step.Honest()
    ensures HonestInv(o, Next(o, w, step))
  {
    if Enabled(w, step) {
      match step
      case ServerReceives(fails) => ServerTakesHonest(o, w, fails);
      case ClientReceives(fails) => ClientTakesHonest(o, w, fails);
      case _ =>
    }
  }

  /** Over every run in which each side gets only what the other sent: whoever
      serves, the client has recorded the smaller of the two offers, the server
      serves only a client that serves, and no side fails for what the other said. */
  lemma {:induction false} RunHonest(o: Offers, steps: seq<Step>)
    requires forall k :: 0 <= k < |steps| ==> steps[k].Honest()
    ensures HonestInv(o, Exec(o, steps))
  {
    if steps != [] {
      RunHonest(o, steps[..|steps| - 1]);
      NextHonest(o, Exec(o, steps[..|steps| - 1]), steps[|steps| - 1]);
    }
  }

  lemma {:induction false} VersionsAgree(o: Offers, steps: seq<Step>)
    requires forall k :: 0 <= k < |steps| ==> steps[k].Honest()
    ensures
      var w := Exec(o, steps);
      && (w.client.Ready? ==>
            && o.handler(o.client).Initialized?
            && var offered, recorded := o.handler(o.client).result.protocolVersion, w.client.server.protocolVersion;
               !Older(o.client, recorded) && !Older(offered, recorded) && (recorded == o.client || recorded == offered))
      && (w.server.Serving? ==> w.client.Ready? && w.server.peer == o.client)
  {
    RunHonest(o, steps);
    if o.handler(o.client).Initialized? {
      NegotiateIsMinimum(o.client, o.handler(o.client).result.protocolVersion);
    }
  }

  /** While nothing fails, a handshake the handler accepts is stuck only when both sides serve. */
  lemma {:induction false} SmoothRunCompletes(o: Offers, steps: seq<Step>)
    requires Accepts(o) && forall k :: 0 <= k < |steps| ==> steps[k].Smooth()
    ensures
      var w := Exec(o, steps);
      && !w.client.ClientFailed? && !w.server.ServerFailed?
      && (w.client.Ready? && w.server.Serving? <==>
            !Enabled(w, Start(false)) && !Enabled(w, ServerReceives(false)) && !Enabled(w, ClientReceives(false)))
  {
    RunHonest(o, steps);
    if steps != [] {
      RunHonest(o, steps[..|steps| - 1]);
      SmoothRunCompletes(o, steps[..|steps| - 1]);
      SmoothNext(o, Exec(o, steps[..|steps| - 1]), steps[|steps| - 1]);
    }
  }

  lemma SmoothNext(o: Offers, w: World, step: Step)
    requires Accepts(o) && HonestInv(o, w) && step.Smooth() && !w.client.ClientFailed? && !w.server.ServerFailed?
    ensures !Next(o, w, step).client.ClientFailed? && !Next(o, w, step).server.ServerFailed?
  {
    if Enabled(w, step) && step.ServerReceives? && w.server.AwaitRequest? {
      assert w.toServer[0] == InitializeRequest(INIT_ID, o.client);
    }
  }

  /** The client does not look at the version it is given: a server that answers
      with any version at all is accepted, larger than the client's offer or unknown to it. */
  lemma AnyVersionIsAccepted(o: Offers, result: InitializeResult)
    ensures
      var w := Exec(o, [Start(false), InjectToClient(InitializeResponse(INIT_ID, result)), ClientReceives(false)]);
      w.client == Ready(result)
  {
    var sent := InjectToClient(InitializeResponse(INIT_ID, result));
    ExecSnoc(o, [], Start(false));
    ExecSnoc(o, [Start(false)], sent);
    ExecSnoc(o, [Start(false), sent], ClientReceives(false));
    assert [] + [Start(false)] == [Start(false)];
    assert [Start(false)] + [sent] == [Start(false), sent];
    assert [Start(false), sent] + [ClientReceives(false)] == [Start(false), sent, ClientReceives(false)];
  }

  lemma ExecSnoc(o: Offers, steps: seq<Step>, step: Step)
    ensures Exec(o, steps + [step]) == Next(o, Exec(o, steps), step)
  {
    assert (steps + [step])[..|steps|] == steps;
  }
}

/** Both sides as the methods that run them on a transport. */
module Handshakes {
  import opened JsonRpc
  import opened Versions
  import opened Handshake
  import opened ServiceLoop
  import LoopRuns
  import ServeLoops

  /** `inbox` is everything the transport will receive before it closes; the sends
      numbered in `failing` fail. */
  class Transport<In, Out> {
    const failing: set<nat>
    var inbox: seq<In>
    var outbox: seq<Out>
    var sends: nat

    constructor (inbox: seq<In>, failing: set<nat>)
      ensures this.inbox == inbox && this.failing == failing && outbox == [] && sends == 0
    {
      this.inbox, this.failing := inbox, failing;
      outbox, sends := [], 0;
    }

    predicate NextFails()
      reads this
    {
      sends in failing
    }

    method Receive() returns (m: Option<In>)
      modifies this`inbox
      ensures m == (if old(inbox) == [] then None else Some(old(inbox)[0]))
      ensures inbox == if old(inbox) == [] then [] else old(inbox)[1..]
    {
      if inbox == [] {
        return None;
      }
      m := Some(inbox[0]);
      inbox := inbox[1..];
    }

    method Send(m: Out) returns (failed: bool)
      modifies this`outbox, this`sends
      ensures failed == old(NextFails()) && sends == old(sends) + 1
      ensures outbox == if failed then old(outbox) else old(outbox) + [m]
    {
      failed := sends in failing;
      sends := sends + 1;
      if !failed {
        outbox := outbox + [m];
      }
    }
  }

  function Heard<M>(inbox: seq<M>): Option<M> {
    if inbox == [] then None else Some(inbox[0])
  }

  function Unheard<M>(inbox: seq<M>): seq<M> {
    if inbox == [] then [] else inbox[1..]
  }

  /** The server machine on its own: where it ends, what it sent, what it left unread. */
  function ServerPlays(handler: Handler, s: ServerState, inbox: seq<ClientMessage>, sendFails: bool):
    (ServerState, seq<ServerMessage>, seq<ClientMessage>)
    decreases if s.AwaitRequest? then 2 else if s.AwaitInitialized? then 1 else 0
  {
    if !s.Waiting() then (s, [], inbox)
    else
      var (s', out) := ServerReacts(handler, s, Heard(inbox), sendFails);
      var (end, rest, left) := ServerPlays(handler, s', Unheard(inbox), sendFails);
      (end, out + rest, left)
  }

  /** The client machine on its own. */
  function ClientPlays(offer: Version, id: RequestId, inbox: seq<ServerMessage>, startFails: bool, sendFails: bool):
    (ClientState, seq<ClientMessage>, seq<ServerMessage>)
  {
    var (s, out) := ClientStarts(offer, id, startFails);
    if !s.AwaitResult? then (s, out, inbox)
    else
      var (s', more) := ClientReacts(id, Heard(inbox), sendFails);
      (s', out + more, Unheard(inbox))
  }

  method ExpectRequest(transport: Transport<ClientMessage, ServerMessage>)
    returns (r: Result<ClientMessage, ServerFailure>)
    modifies transport`inbox
    ensures transport.inbox == Unheard(old(transport.inbox))
    ensures
      var heard: Option<ClientMessage> := Heard(old(transport.inbox));
      r == if heard.None? then Err(ServerConnectionClosed)
           else if heard.value.IsRequest() then Ok(heard.value)
           else Err(ExpectedInitializeRequest(heard.value))
  {
    var got := transport.Receive();
    if got.None? {
      return Err(ServerConnectionClosed);
    }
    return if got.value.IsRequest() then Ok(got.value) else Err(ExpectedInitializeRequest(got.value));
  }

  /** `serve_server_with_ct`, up to the service loop. */
  method ServeServer(
    transport: Transport<ClientMessage, ServerMessage>, handler: Handler) returns (r: Result<Version, ServerFailure>)
    modifies transport
    ensures
      var (end, out, left) := ServerPlays(handler, AwaitRequest, old(transport.inbox), old(transport.NextFails()));
      && transport.outbox == old(transport.outbox) + out && transport.inbox == left
      && end == (match r case Ok(peer) => Serving(peer) case Err(e) => ServerFailed(e))
  {
    var expected := ExpectRequest(transport);
    if expected.Err? {
      return Err(expected.error);
    }
    var request := expected.value;
    if !request.InitializeRequest? {
      return Err(ExpectedInitializeRequest(request));
    }
    var id, peerVersion := request.id, request.version;
    var initResponse;
    match handler(peerVersion) {
      case Initialized(response) => initResponse := response;
      case OtherResult(result) => return Err(UnexpectedInitializeResponse(result));
      case Refused(e) =>
        var failed := transport.Send(ServerError(id, e));
        return Err(if failed then ServerTransportError else InitializeFailed(e));
    }
    var ordering := PartialCompare(peerVersion, initResponse.protocolVersion);
    if ordering.None? {
      return Err(UnsupportedProtocolVersion(peerVersion));
    }
    var protocolVersion := if ordering.value == Less then peerVersion else initResponse.protocolVersion;
    initResponse := initResponse.(protocolVersion := protocolVersion);
    var failed := transport.Send(InitializeResponse(id, initResponse));
    if failed {
      return Err(ServerTransportError);
    }
    var notification := transport.Receive();
    if notification.None? {
      return Err(ServerConnectionClosed);
    }
    if notification.value != InitializedNotification {
      return Err(ExpectedInitializedNotification(notification.value));
    }
    return Ok(peerVersion);
  }

  /** `serve_client_with_ct`, up to the service loop; the id provider goes on to it. */
  method ServeClient(
    transport: Transport<ServerMessage, ClientMessage>, offer: Version, idProvider: ServeLoops.AtomicU32Provider)
    returns (r: Result<InitializeResult, ClientFailure>)
    requires idProvider.Valid() && idProvider.drawn == 0
    modifies transport, idProvider
    ensures idProvider.Valid() && idProvider.drawn == 1
    ensures
      var first := old(transport.sends);
      var (end, out, left) := ClientPlays(offer, INIT_ID, old(transport.inbox),
                                          first in transport.failing, first + 1 in transport.failing);
      && transport.outbox == old(transport.outbox) + out && transport.inbox == left
      && end == (match r case Ok(server) => Ready(server) case Err(e) => ClientFailed(e))
  {
    var id := idProvider.NextRequestId();
    var failed := transport.Send(InitializeRequest(id, offer));
    if failed {
      return Err(ClientTransportError);
    }
    var message := transport.Receive();
    if message.None? {
      return Err(ClientConnectionClosed);
    }
    if !message.value.InitializeResponse? && !message.value.ServerResponse? {
      return Err(ExpectedInitResponse(message.value));
    }
    if message.value.id != id {
      return Err(ConflictInitResponseId(id, message.value.id));
    }
    if !message.value.InitializeResponse? {
      return Err(ExpectedInitResult(message.value.result));
    }
    failed := transport.Send(InitializedNotification);
    if failed {
      return Err(ClientTransportError);
    }
    return Ok(message.value.initialized);
  }

  /** The client's loop draws its ids after the one of its initialize request: while
      fewer than 2^32 are drawn in all, none of its requests carries that id. */
  lemma InitIdNotReused(steps: seq<ServiceLoop.Step>)
    ensures
      var s := ServiceLoop.Exec(1, steps);
      s.drawn <= U32_LIMIT ==>
        && INIT_ID !in s.core.responderPool
        && (forall k :: 0 <= k < |s.peerQueue| && s.peerQueue[k].SinkRequest? ==> s.peerQueue[k].id != INIT_ID)
        && (forall k :: 0 <= k < |s.core.answers| ==> s.core.answers[k].cause != INIT_ID)
  {
    LoopRuns.RunKeepsRequests(1, steps);
    var s := ServiceLoop.Exec(1, steps);
    if s.drawn <= U32_LIMIT {
      InitIdUnused(s);
    }
  }

  lemma LaterId(s: System, r: Responder)
    requires LoopRuns.RequestInv(s) && s.first == 1 && s.drawn <= U32_LIMIT && r in LoopRuns.Places(s)
    ensures IdOf(r) == Number(r) && r != 0
  {
  }

  lemma InitIdUnused(s: System)
    requires LoopRuns.RequestInv(s) && s.first == 1 && s.drawn <= U32_LIMIT
    ensures INIT_ID !in s.core.responderPool
    ensures forall k :: 0 <= k < |s.peerQueue| && s.peerQueue[k].SinkRequest? ==> s.peerQueue[k].id != INIT_ID
    ensures forall k :: 0 <= k < |s.core.answers| ==> s.core.answers[k].cause != INIT_ID
  {
    if INIT_ID in s.core.responderPool {
      var r := s.core.responderPool[INIT_ID];
      assert r in s.core.responderPool.Values;
      LaterId(s, r);
    }
    forall k | 0 <= k < |s.peerQueue| && s.peerQueue[k].SinkRequest? ensures s.peerQueue[k].id != INIT_ID {
      var r := s.peerQueue[k].responder;
      assert r in Queued(s.peerQueue);
      LaterId(s, r);
    }
    forall k | 0 <= k < |s.core.answers| ensures s.core.answers[k].cause != INIT_ID {
      var r := s.core.answers[k].responder;
      assert r in LoopRuns.Answered(s.core);
      LaterId(s, r);
    }
  }
}
