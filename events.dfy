/** The event client of hatchet_sdk/clients/events.py: building push, bulk
    push, log and stream requests. The event service is a parameter: its
    answer to each request; the clock is the POSIX time it reads. */
module Events {
  import opened Wrappers
  import opened Text
  import opened Python

  datatype PushEventOptions = PushEventOptions(additionalMetadata: Option<PyValue>, namespace: Option<string>)

  datatype BulkPushEventOptions = BulkPushEventOptions(namespace: Option<string>)

  datatype BulkPushEventWithMetadata = BulkPushEventWithMetadata(key: string, payload: PyValue, additionalMetadata: PyValue)

  datatype PushEventRequest = PushEventRequest(
    key: string, payload: string, eventTimestamp: Timestamp, additionalMetadata: Option<string>)

  datatype PutLogRequest = PutLogRequest(stepRunId: string, createdAt: Timestamp, message: string)

  datatype PutStreamEventRequest = PutStreamEventRequest(stepRunId: string, createdAt: Timestamp, message: seq<byte>)

  /** The server's record of a pushed event, passed through untouched. */
  datatype Event = Event(eventId: string)

  datatype EventsService = EventsService(
    push: PushEventRequest -> RpcOutcome<Event>,
    bulkPush: seq<PushEventRequest> -> RpcOutcome<seq<Event>>)

  /** An event client: only its namespace matters to the requests. */
  datatype EventClient = EventClient(namespace: string, token: string)

  /** The request `push` sends. The metadata is encoded before the payload,
      so its failure is the one reported when both fail. */
  function PushRequest(client: EventClient, eventKey: string, payload: PyValue, options: PushEventOptions,
                       json: Json, now: real)
    : (r: PyResult<PushEventRequest>)
    ensures options.additionalMetadata.Some? && json.dumps(options.additionalMetadata.value).Err?
            ==> r == Err(ValueError("Error encoding meta: " + json.dumps(options.additionalMetadata.value).error))
    ensures (options.additionalMetadata.Some? ==> json.dumps(options.additionalMetadata.value).Ok?)
            && json.dumps(payload).Err?
            ==> r == Err(ValueError("Error encoding payload: " + json.dumps(payload).error))
    ensures r.Err? ==> r.error.ValueError?
    ensures r.Ok? <==> json.dumps(payload).Ok?
                       && (options.additionalMetadata.Some? ==> json.dumps(options.additionalMetadata.value).Ok?)
    ensures r.Ok? ==>
              (r.value.key == NamespaceOr(options.namespace, client.namespace) + eventKey
               && r.value.payload == json.dumps(payload).value
               && r.value.eventTimestamp == TimestampOf(now)
               && (r.value.additionalMetadata.None? <==> options.additionalMetadata.None?)
               && (options.additionalMetadata.Some? ==>
                     r.value.additionalMetadata == Some(json.dumps(options.additionalMetadata.value).value)))
  {
    var key := NamespaceOr(options.namespace, client.namespace) + eventKey;
    var meta: PyResult<Option<string>> :=
      match options.additionalMetadata
      case None => Ok(None)
      case Some(m) =>
        match json.dumps(m)
        case Ok(text) => Ok(Some(text))
        case Err(e) => Err(ValueError("Error encoding meta: " + e));
    match meta
    case Err(e) => Err(e)
    case Ok(metaText) =>
      match json.dumps(payload)
      case Err(e) => Err(ValueError("Error encoding payload: " + e))
      case Ok(payloadText) => Ok(PushEventRequest(key, payloadText, TimestampOf(now), metaText))
  }

  /** `push`: the request's failure, or the service's answer. */
  function Push(client: EventClient, eventKey: string, payload: PyValue, options: PushEventOptions,
                json: Json, now: real, service: EventsService)
    : (r: PyResult<Event>)
    ensures var q := PushRequest(client, eventKey, payload, options, json, now);
            && (q.Err? ==> r == Err(q.error))
            && (q.Ok? && service.push(q.value).RpcOk? ==> r == Ok(service.push(q.value).response))
            && (q.Ok? && service.push(q.value).RpcFailed? ==>
                  r == Err(RpcError(service.push(q.value).code, service.push(q.value).details)))
  {
    match PushRequest(client, eventKey, payload, options, json, now)
    case Err(e) => Err(e)
    case Ok(q) =>
      match service.push(q)
      case RpcOk(event) => Ok(event)
      case RpcFailed(code, details) => Err(RpcError(code, details))
  }

  /** `_create_push_event_request`. */
  function CreatePushEventRequest(event: BulkPushEventWithMetadata, namespace: string, json: Json, now: real)
    : (r: PyResult<PushEventRequest>)
    ensures r.Err? ==> r.error.ValueError?
    ensures json.dumps(event.additionalMetadata).Err?
            ==> r == Err(ValueError("Error encoding meta: " + json.dumps(event.additionalMetadata).error))
    ensures json.dumps(event.additionalMetadata).Ok? && json.dumps(event.payload).Err?
            ==> r == Err(ValueError("Error encoding payload: " + json.dumps(event.payload).error))
    ensures r.Ok? <==> json.dumps(event.additionalMetadata).Ok? && json.dumps(event.payload).Ok?
    ensures r.Ok? ==>
              (r.value.key == namespace + event.key && r.value.payload == json.dumps(event.payload).value
               && r.value.additionalMetadata == Some(json.dumps(event.additionalMetadata).value)
               && r.value.eventTimestamp == TimestampOf(now))
  {
    match json.dumps(event.additionalMetadata)
    case Err(e) => Err(ValueError("Error encoding meta: " + e))
    case Ok(metaText) =>
      match json.dumps(event.payload)
      case Err(e) => Err(ValueError("Error encoding payload: " + e))
      case Ok(payloadText) => Ok(PushEventRequest(namespace + event.key, payloadText, TimestampOf(now), Some(metaText)))
  }

  /** The requests `bulk_push` builds, one per event in order, all under the
      same namespace; `clock(i)` is the time read for the i-th event. */
  function BulkPushRequests(events: seq<BulkPushEventWithMetadata>, namespace: string, json: Json,
                            clock: nat -> real, first: nat)
    : (r: PyResult<seq<PushEventRequest>>)
    ensures r.Ok? <==> forall i :: 0 <= i < |events| ==> CreatePushEventRequest(events[i], namespace, json, clock(first + i)).Ok?
    ensures r.Ok? ==>
              (|r.value| == |events|
               && forall i :: 0 <= i < |events| ==>
                    r.value[i] == CreatePushEventRequest(events[i], namespace, json, clock(first + i)).value)
    ensures r.Err? ==> r.error.ValueError?
  {
    if events == [] then Ok([])
    else
      match CreatePushEventRequest(events[0], namespace, json, clock(first))
      case Err(e) => Err(e)
      case Ok(q) =>
        match BulkPushRequests(events[1..], namespace, json, clock, first + 1)
        case Err(e) => Err(e)
        case Ok(qs) =>
          Ok([q] + qs)
  }

  /** A failed bulk preparation raises the error of the first event whose
      request cannot be built; every event before it was prepared. */
  lemma {:induction false} BulkPushFirstError(events: seq<BulkPushEventWithMetadata>, namespace: string, json: Json,
                                              clock: nat -> real, first: nat)
    ensures var r := BulkPushRequests(events, namespace, json, clock, first);
            r.Err? ==> exists i :: 0 <= i < |events|
                         && (forall j :: 0 <= j < i ==> CreatePushEventRequest(events[j], namespace, json, clock(first + j)).Ok?)
                         && CreatePushEventRequest(events[i], namespace, json, clock(first + i)) == Err(r.error)
  {
    var r := BulkPushRequests(events, namespace, json, clock, first);
    if r.Err? {
      if CreatePushEventRequest(events[0], namespace, json, clock(first)).Err? {
        assert CreatePushEventRequest(events[0], namespace, json, clock(first + 0)) == Err(r.error);
      } else {
        var rest := events[1..];
        BulkPushFirstError(rest, namespace, json, clock, first + 1);
        var i :| 0 <= i < |rest|
                 && (forall j :: 0 <= j < i ==> CreatePushEventRequest(rest[j], namespace, json, clock(first + 1 + j)).Ok?)
                 && CreatePushEventRequest(rest[i], namespace, json, clock(first + 1 + i)) == Err(r.error);
        assert events[i + 1] == rest[i];
        forall j | 0 <= j < i + 1
          ensures CreatePushEventRequest(events[j], namespace, json, clock(first + j)).Ok?
        {
          if j > 0 {
            assert events[j] == rest[j - 1];
          }
        }
      }
    }
  }

  /** Every request of a bulk push carries the namespace before its key. */
  lemma BulkPushKeysNamespaced(client: EventClient, events: seq<BulkPushEventWithMetadata>,
                               options: BulkPushEventOptions, json: Json, clock: nat -> real)
    requires BulkPushRequests(events, NamespaceOr(options.namespace, client.namespace), json, clock, 0).Ok?
    ensures var qs := BulkPushRequests(events, NamespaceOr(options.namespace, client.namespace), json, clock, 0).value;
            forall i :: 0 <= i < |qs| ==>
              qs[i].key == NamespaceOr(options.namespace, client.namespace) + events[i].key
  {
  }

  /** `bulk_push`. */
  function BulkPush(client: EventClient, events: seq<BulkPushEventWithMetadata>, options: BulkPushEventOptions,
                    json: Json, clock: nat -> real, service: EventsService)
    : (r: PyResult<seq<Event>>)
    ensures var qs := BulkPushRequests(events, NamespaceOr(options.namespace, client.namespace), json, clock, 0);
            && (qs.Err? ==> r == Err(qs.error))
            && (qs.Ok? && service.bulkPush(qs.value).RpcOk? ==> r == Ok(service.bulkPush(qs.value).response))
            && (qs.Ok? && service.bulkPush(qs.value).RpcFailed? ==>
                  r == Err(RpcError(service.bulkPush(qs.value).code, service.bulkPush(qs.value).details)))
  {
    match BulkPushRequests(events, NamespaceOr(options.namespace, client.namespace), json, clock, 0)
    case Err(e) => Err(e)
    case Ok(qs) =>
      match service.bulkPush(qs)
      case RpcOk(response) => Ok(response)
      case RpcFailed(code, details) => Err(RpcError(code, details))
  }

  /** `log`: the request it sends. */
  function LogRequest(message: string, stepRunId: string, now: real): (q: PutLogRequest)
    ensures q.message == message && q.stepRunId == stepRunId && q.createdAt == TimestampOf(now)
  {
    PutLogRequest(stepRunId, TimestampOf(now), message)
  }

  /** `stream`: strings are sent as their UTF-8 encoding, bytes as they are,
      anything else is refused. */
  function StreamRequest(data: PyValue, stepRunId: string, now: real): (r: PyResult<PutStreamEventRequest>)
    ensures r.Ok? <==> data.PyStr? || data.PyBytes?
    ensures data.PyStr? ==> r.Ok? && Utf8Decode(r.value.message) == Some(data.s)
    ensures data.PyBytes? ==> r.Ok? && r.value.message == data.bytes
    ensures r.Ok? ==> r.value.stepRunId == stepRunId && r.value.createdAt == TimestampOf(now)
    ensures r.Err? ==> r.error == ValueError("Invalid data type. Expected str, bytes, or file.")
  {
    match data
    case PyStr(s) =>
      Utf8RoundTrip(s);
      Ok(PutStreamEventRequest(stepRunId, TimestampOf(now), Utf8Encode(s)))
    case PyBytes(b) => Ok(PutStreamEventRequest(stepRunId, TimestampOf(now), b))
    case _ => Err(ValueError("Invalid data type. Expected str, bytes, or file."))
  }
}
