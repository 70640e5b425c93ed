/** The JSON-RPC messages the runtime exchanges (crates/rmcp/src/model.rs).

    Parameters, results and error data are opaque strings; the model keeps only
    what the runtime itself looks at: ids, progress tokens, the cancellation
    notification and the batch structure.
  */
module JsonRpc {

  datatype Option<+T> = None | Some(value: T)

  datatype Result<+T, +E> = Ok(value: T) | Err(error: E)

  /** `NumberOrString`: a numeric id is a `u32`. */
  const U32_LIMIT: nat := 0x1_0000_0000

  const U64_LIMIT: nat := 0x1_0000_0000_0000_0000

  type U32 = n: nat | n < U32_LIMIT

  datatype RequestId = Number(n: U32) | Text(s: string)

  datatype RequestBody = RequestBody(progressToken: Option<RequestId>, payload: string)

  /** The notifications the runtime treats specially, and all the others. */
  datatype NotificationBody =
    | Cancelled(requestId: RequestId, reason: Option<string>)
    | Progress(token: RequestId, progress: string)
    | Initialized
    | Plain(payload: string)

  datatype BatchRequestItem =
    | ItemRequest(id: RequestId, request: RequestBody)
    | ItemNotification(notification: NotificationBody)
  {
    function IntoNonBatchMessage(): Message {
      match this
      case ItemRequest(id, r) => Request(id, r)
      case ItemNotification(n) => Notification(n)
    }
  }

  datatype BatchResponseItem =
    | ItemResponse(id: RequestId, result: string)
    | ItemError(id: RequestId, error: string)
  {
    function IntoNonBatchMessage(): Message {
      match this
      case ItemResponse(id, r) => Response(id, r)
      case ItemError(id, e) => Error(id, e)
    }
  }

  datatype Message =
    | Request(id: RequestId, request: RequestBody)
    | Response(id: RequestId, result: string)
    | Notification(notification: NotificationBody)
    | BatchRequest(requests: seq<BatchRequestItem>)
    | BatchResponse(responses: seq<BatchResponseItem>)
    | Error(id: RequestId, error: string)
  {
    predicate IsBatch() {
      BatchRequest? || BatchResponse?
    }

    /** A message that answers a request of the other side. */
    predicate IsReply() {
      Response? || Error?
    }

    /** The non-batch messages one received message stands for, in order. */
    function Flattened(): (ms: seq<Message>)
      ensures forall k :: 0 <= k < |ms| ==> !ms[k].IsBatch()
      ensures BatchRequest? ==>
                && |ms| == |requests|
                && forall k :: 0 <= k < |ms| ==>
                     && (requests[k].ItemRequest? ==> ms[k] == Request(requests[k].id, requests[k].request))
                     && (requests[k].ItemNotification? ==> ms[k] == Notification(requests[k].notification))
      ensures BatchResponse? ==>
                && |ms| == |responses|
                && forall k :: 0 <= k < |ms| ==>
                     && (responses[k].ItemResponse? ==> ms[k] == Response(responses[k].id, responses[k].result))
                     && (responses[k].ItemError? ==> ms[k] == Error(responses[k].id, responses[k].error))
      ensures !IsBatch() ==> ms == [this]
    {
      match this
      case BatchRequest(items) =>
        seq(|items|, k requires 0 <= k < |items| => items[k].IntoNonBatchMessage())
      case BatchResponse(items) =>
        seq(|items|, k requires 0 <= k < |items| => items[k].IntoNonBatchMessage())
      case _ => [this]
    }
  }

  function FlattenAll(ms: seq<Message>): (r: seq<Message>)
    ensures forall k :: 0 <= k < |r| ==> !r[k].IsBatch()
  {
    if ms == [] then [] else FlattenAll(ms[..|ms| - 1]) + ms[|ms| - 1].Flattened()
  }
}
